/**
 * One mounted FAT32 volume: the write-back FAT sector cache, mirrored to two
 * on-disk tables, and the one-cluster data buffer (kernel/src/fat.c:17-41, 137-289).
 * The block device never fails.
 */
module Volumes {
  import opened Options
  import opened Bytes
  import opened Names
  import opened Chains
  import opened Dirs
  import opened Trees
  import opened Wellformed
  import opened Ops
  import opened Paths
  import opened Removals
  import opened Leaks
  import opened Mending
  import opened DotPaths
  import opened Geometries

  const NONE: nat := 0xFFFFFFFF

  /** Store a 32-bit little-endian field in place (fat.c:195-201). */
  method PutW32(a: array<byte>, o: nat, v: nat)
    requires o + 4 <= a.Length && v < 0x1_0000_0000
    modifies a
    ensures a[..] == W32(old(a[..]), o, v)
  {
    var v1 := v / 0x100;
    var v2 := v1 / 0x100;
    a[o], a[o+1], a[o+2], a[o+3] := v % 0x100, v1 % 0x100, v2 % 0x100, v2 / 0x100;
  }

  /** `sec` spells out entries 128*s .. 128*s + 127 of the table. */
  ghost predicate Spells(sec: Sector, s: nat, fat: seq<nat>, top: seq<nat>)
    requires |fat| == |top| && s * 128 + 128 <= |fat|
  {
    forall e: nat :: e < 128 ==> R32(sec, e * 4) == top[s * 128 + e] * 0x1000_0000 + fat[s * 128 + e]
  }

  /** Storing one entry keeps every other. */
  lemma SpellsSet(sec: Sector, s: nat, e: nat, val: nat, fat: seq<nat>, top: seq<nat>)
    requires |fat| == |top| && s * 128 + 128 <= |fat| && e < 128 && val < 0x1000_0000
    requires Spells(sec, s, fat, top)
    requires fat[s * 128 + e] < 0x1000_0000 && top[s * 128 + e] < 16
    ensures Spells(W32(sec, e * 4, R32(sec, e * 4) / 0x1000_0000 * 0x1000_0000 + val), s, fat[s * 128 + e := val], top)
  {
    var v := R32(sec, e * 4) / 0x1000_0000 * 0x1000_0000 + val;
    assert R32(sec, e * 4) / 0x1000_0000 == top[s * 128 + e];
    forall k: nat | k < 128 && k != e
      ensures R32(W32(sec, e * 4, v), k * 4) == R32(sec, k * 4)
    {
    }
  }

  lemma EntryPlace(c: nat)
    ensures c * 4 / 512 == c / 128 && c * 4 % 512 == c % 128 * 4 && c == c / 128 * 128 + c % 128
  {
  }

  lemma SpellsElsewhere(sec: Sector, s: nat, fat: seq<nat>, top: seq<nat>, c: nat, val: nat)
    requires |fat| == |top| && s * 128 + 128 <= |fat| && c < |fat| && !(s * 128 <= c < s * 128 + 128)
    requires Spells(sec, s, fat, top)
    ensures Spells(sec, s, fat[c := val], top)
  {
  }

  lemma SameSectors(a: seq<byte>, b: seq<byte>, n: nat)
    requires |a| == |b| == n * 512
    requires forall k: nat :: k < n ==> SectorOf(a, k) == SectorOf(b, k)
    ensures a == b
  {
    forall i | 0 <= i < |a| ensures a[i] == b[i] {
      assert SectorOf(a, i / 512)[i % 512] == SectorOf(b, i / 512)[i % 512];
    }
  }

  /** The low 28 bits of `n` table entries that start at sector `base`. */
  ghost function TableOf(d: seq<Sector>, base: nat, n: nat): (r: seq<nat>)
    requires n % 128 == 0 && base + n / 128 <= |d|
    ensures |r| == n && forall i :: 0 <= i < n ==> r[i] < 0x1000_0000
  {
    seq(n, i requires 0 <= i < n => R32(d[base + i / 128], i % 128 * 4) % 0x1000_0000)
  }

  /** Their top four bits. */
  ghost function TopOf(d: seq<Sector>, base: nat, n: nat): (r: seq<nat>)
    requires n % 128 == 0 && base + n / 128 <= |d|
    ensures |r| == n && forall i :: 0 <= i < n ==> r[i] < 16
  {
    seq(n, i requires 0 <= i < n => R32(d[base + i / 128], i % 128 * 4) / 0x1000_0000)
  }

  /** `n` sectors, joined. */
  ghost function Sectors(d: seq<Sector>, lba: nat, n: nat): (r: seq<byte>)
    requires lba + n <= |d|
    ensures |r| == n * 512
  {
    if n == 0 then [] else Sectors(d, lba, n - 1) + d[lba + n - 1]
  }

  lemma {:induction false} JoinedSector(d: seq<Sector>, lba: nat, n: nat, k: nat)
    requires lba + n <= |d| && k < n
    ensures SectorOf(Sectors(d, lba, n), k) == d[lba + k]
  {
    if k < n - 1 {
      JoinedSector(d, lba, n - 1, k);
      assert SectorOf(Sectors(d, lba, n), k) == SectorOf(Sectors(d, lba, n - 1), k);
    }
  }

  /** The clusters of a partition; those below 2 do not exist. */
  ghost function DataOf(d: seq<Sector>, partLba: nat, g: Geometry): (r: seq<seq<byte>>)
    requires g.Ok() && |d| >= partLba + g.DataBegin() + g.total * g.spc
    ensures |r| == g.Limit() && forall c :: 2 <= c < g.Limit() ==> |r[c]| == g.ClusterBytes()
  {
    seq(g.Limit(), c requires 0 <= c < g.Limit() => ClusterOf(d, partLba, g, c))
  }

  ghost function ClusterOf(d: seq<Sector>, partLba: nat, g: Geometry, c: nat): (r: seq<byte>)
    requires g.Ok() && |d| >= partLba + g.DataBegin() + g.total * g.spc && c < g.Limit()
    ensures c >= 2 ==> |r| == g.ClusterBytes()
  {
    if c < 2 then []
    else
      ClustersApart(g, c, c);
      Sectors(d, partLba + g.ClusLba(c), g.spc)
  }

  lemma EntryHome(s: nat, e: nat)
    requires e < 128
    ensures (s * 128 + e) / 128 == s && (s * 128 + e) % 128 == e
  {
  }

  class Volume {
    const disk: array<Sector>
    const partLba: nat
    const g: Geometry
    const fatCache: array<byte>
    const clusBuf: array<byte>
    var cacheSec: nat
    var dirty: bool
    var search: nat
    var loaded: nat

    // The plain table and clusters that the caches stand for.
    ghost var fat: seq<nat>
    ghost var top: seq<nat>
    ghost var data: seq<seq<byte>>
    // The witness of well-formedness.
    ghost var L: Layout

    /** Mount what fat_bind accepted: empty caches, and what the disk spells (fat.c:1220-1293). */
    constructor Mount(disk: array<Sector>, partLba: nat, g: Geometry, ghost L: Layout)
      requires g.Ok() && disk.Length >= partLba + g.DataBegin()
          && disk.Length >= partLba + g.DataBegin() + g.total * g.spc
      ensures Valid() && this.disk == disk && this.partLba == partLba && this.g == g && this.L == L && !dirty
      ensures fresh(fatCache) && fresh(clusBuf)
      ensures fat == TableOf(disk[..], partLba + g.fatBegin, g.Entries()) && data == DataOf(disk[..], partLba, g)
    {
      this.disk, this.partLba, this.g, this.L := disk, partLba, g, L;
      fatCache := new byte[512];
      clusBuf := new byte[g.ClusterBytes()];
      cacheSec, dirty, search, loaded := NONE, false, 3, NONE;
      fat := TableOf(disk[..], partLba + g.fatBegin, g.Entries());
      top := TopOf(disk[..], partLba + g.fatBegin, g.Entries());
      data := DataOf(disk[..], partLba, g);
      new;
      MountedTables();
      MountedData();
    }

    /** Copy 1 spells the table it was read from. */
    lemma MountedTables()
      requires Shape() && cacheSec == NONE && !dirty
      requires fat == TableOf(disk[..], partLba + g.fatBegin, g.Entries())
      requires top == TopOf(disk[..], partLba + g.fatBegin, g.Entries())
      ensures TableOk()
    {
      hide R32;
      forall s: nat | s < g.fatSz ensures Spells(FatSector(s), s, fat, top) {
        forall e: nat | e < 128 ensures R32(FatSector(s), e * 4) == top[s * 128 + e] * 0x1000_0000 + fat[s * 128 + e] {
          EntryHome(s, e);
        }
      }
    }

    lemma MountedData()
      requires Shape() && data == DataOf(disk[..], partLba, g)
      ensures forall c :: 2 <= c < g.Limit() ==> OnDisk(c, data[c])
    {
      forall c | 2 <= c < g.Limit() ensures OnDisk(c, data[c]) {
        ClustersApart(g, c, c);
        forall k: nat | k < g.spc ensures disk[partLba + g.ClusLba(c) + k] == SectorOf(data[c], k) {
          JoinedSector(disk[..], partLba + g.ClusLba(c), g.spc, k);
        }
      }
    }

    ghost predicate Geom()
    {
      && g.Ok()
      && disk.Length >= partLba + g.DataBegin()
      && disk.Length >= partLba + g.DataBegin() + g.total * g.spc
      && fatCache.Length == 512 && clusBuf.Length == g.ClusterBytes() && fatCache != clusBuf
    }

    ghost predicate Shape()
      reads this`fat, this`top, this`data
    {
      && Geom()
      && |fat| == |top| == g.Entries()
      && |data| == g.Limit()
      && (forall i :: 0 <= i < |fat| ==> fat[i] < 0x1000_0000)
      && (forall i :: 0 <= i < |top| ==> top[i] < 16)
      && (forall c :: 2 <= c < |data| ==> |data[c]| == g.ClusterBytes())
    }

    /** What callers rely on without looking into the caches. */
    ghost predicate Basic()
      reads this`fat, this`data
    {
      && Geom() && 3 <= g.Limit() <= |fat| && g.Limit() <= BAD && |data| == g.Limit()
      && fatCache.Length == 512 && fatCache != clusBuf && g.ClusterBytes() == clusBuf.Length > 0
      && DataShape(data, g.Limit(), g.spc * 16)
      && 2 <= g.rootClus < g.Limit()
    }

    ghost function Copy1(s: nat): Sector
      requires Geom() && s < g.fatSz
      reads disk
    {
      disk[partLba + g.fatBegin + s]
    }

    ghost function Copy2(s: nat): Sector
      requires Geom() && s < g.fatSz
      reads disk
    {
      disk[partLba + g.fatBegin + g.fatSz + s]
    }

    /** FAT sector `s` as the driver sees it: cached or on disk. */
    ghost function FatSector(s: nat): Sector
      requires Geom() && s < g.fatSz
      reads this`cacheSec, disk, fatCache
    {
      if s == cacheSec then fatCache[..] else Copy1(s)
    }

    ghost predicate CacheOk()
      requires Geom()
      reads this`cacheSec, this`dirty, disk, fatCache
    {
      && (cacheSec == NONE || cacheSec < g.fatSz)
      && (dirty ==> cacheSec < g.fatSz)
      && (cacheSec < g.fatSz && !dirty ==> fatCache[..] == Copy1(cacheSec))
    }

    ghost predicate TableOk()
      requires Shape()
      reads this`fat, this`top, this`data, this`cacheSec, this`dirty, disk, fatCache
    {
      && CacheOk()
      && forall s: nat :: s < g.fatSz ==> Spells(FatSector(s), s, fat, top)
    }

    /** The disk sectors of cluster `c` hold `d`. */
    ghost predicate OnDisk(c: nat, d: seq<byte>)
      requires Geom() && 2 <= c < g.Limit() && |d| == g.ClusterBytes()
      reads disk
    {
      ClustersApart(g, c, c);
      forall k: nat :: k < g.spc ==> disk[partLba + g.ClusLba(c) + k] == SectorOf(d, k)
    }

    /** All but the claim about what the cluster buffer holds. */
    ghost predicate ValidButBuffer()
      reads this`fat, this`top, this`data, this`cacheSec, this`dirty, disk, fatCache
      ensures ValidButBuffer() ==> Basic()
    {
      && Shape()
      && TableOk()
      && forall c :: 2 <= c < g.Limit() ==> OnDisk(c, data[c])
    }

    ghost predicate Valid()
      reads this`fat, this`top, this`data, this`cacheSec, this`dirty, this`loaded, disk, fatCache, clusBuf
      ensures Valid() ==> Basic()
    {
      && ValidButBuffer()
      && (loaded == NONE || (2 <= loaded < g.Limit() && clusBuf[..] == data[loaded]))
    }

    /** The second table equals the first, except for a sector not yet written back. */
    ghost predicate Mirrored()
      requires Geom()
      reads this`cacheSec, this`dirty, disk
    {
      forall s: nat :: s < g.fatSz && !(dirty && s == cacheSec) ==> Copy1(s) == Copy2(s)
    }

    /** Read `count` sectors into `buf`, one at a time (fat.c:137-155). */
    method Rd(lba: nat, count: nat, buf: array<byte>)
      requires partLba + lba + count <= disk.Length && buf.Length == count * 512
      modifies buf
      ensures forall k: nat :: k < count ==> SectorOf(buf[..], k) == disk[partLba + lba + k]
    {
      var i := 0;
      while i < count
        invariant i <= count
        invariant forall k: nat :: k < i ==> SectorOf(buf[..], k) == disk[partLba + lba + k]
      {
        var sec := disk[partLba + lba + i];
        ghost var before := buf[..];
        forall b | 0 <= b < 512 { buf[i * 512 + b] := sec[b]; }
        assert forall k: nat :: k < i ==> SectorOf(buf[..], k) == SectorOf(before, k);
        assert SectorOf(buf[..], i) == sec;
        i := i + 1;
      }
    }

    /** Write `count` sectors from `buf` (fat.c:158-176). */
    method Wr(lba: nat, count: nat, buf: array<byte>)
      requires partLba + lba + count <= disk.Length && buf.Length == count * 512
      modifies disk
      ensures forall k: nat :: k < count ==> disk[partLba + lba + k] == SectorOf(buf[..], k)
      ensures forall j: nat :: j < disk.Length && !(partLba + lba <= j < partLba + lba + count) ==>
          disk[j] == old(disk[j])
    {
      var i := 0;
      while i < count
        invariant i <= count
        invariant forall k: nat :: k < i ==> disk[partLba + lba + k] == SectorOf(buf[..], k)
        invariant forall j: nat :: j < disk.Length && !(partLba + lba <= j < partLba + lba + i) ==>
            disk[j] == old(disk[j])
      {
        disk[partLba + lba + i] := buf[i * 512 .. i * 512 + 512];
        i := i + 1;
      }
    }

    /** Flush a dirty cached FAT sector to both FAT copies (fat.c:204-217). */
    method FatFlush()
      requires Valid()
      modifies this`dirty, disk
      ensures Valid() && !dirty
      ensures old(Mirrored()) ==> Mirrored()
    {
      if !dirty || cacheSec == NONE {
        return;
      }
      Wr(g.fatBegin + cacheSec, 1, fatCache);
      Wr(g.fatBegin + g.fatSz + cacheSec, 1, fatCache);
      assert SectorOf(fatCache[..], 0) == fatCache[..];
      dirty := false;
      forall s: nat | s < g.fatSz
        ensures Copy1(s) == old(FatSector(s)) && Copy2(s) == if s == cacheSec then fatCache[..] else old(Copy2(s))
      {
      }
      forall s: nat | s < g.fatSz ensures FatSector(s) == old(FatSector(s)) { assert Copy1(s) == old(FatSector(s)); }
      forall c | 2 <= c < g.Limit() ensures OnDisk(c, data[c]) {
        ClustersApart(g, c, c);
        assert old(OnDisk(c, data[c]));
      }
    }

    /** Once flushed, both on-disk tables spell every entry, its top four bits included. */
    lemma BothTables(c: nat)
      requires Valid() && Mirrored() && !dirty && c < g.Limit()
      ensures c / 128 < g.fatSz && c < |fat|
      ensures R32(Copy1(c / 128), c % 128 * 4) == R32(Copy2(c / 128), c % 128 * 4) == top[c] * 0x1000_0000 + fat[c]
    {
      hide OnDisk, R32;
      EntryPlace(c);
      assert Spells(FatSector(c / 128), c / 128, fat, top);
    }

    /** Bring FAT sector `sec` into the cache (fat.c:220-233). */
    method FatLoad(sec: nat)
      requires Valid() && sec < g.fatSz
      modifies this`dirty, this`cacheSec, disk, fatCache
      ensures Valid() && cacheSec == sec
      ensures (old(Mirrored()) ==> Mirrored()) && (dirty ==> old(dirty))
    {
      if sec == cacheSec {
        return;
      }
      FatFlush();
      label Flushed:
      Rd(g.fatBegin + sec, 1, fatCache);
      assert SectorOf(fatCache[..], 0) == fatCache[..];
      cacheSec := sec;
      forall s: nat | s < g.fatSz ensures FatSector(s) == old@Flushed(FatSector(s)) {}
      assert old(Mirrored()) ==> Mirrored() by {
        forall s: nat | s < g.fatSz ensures Copy1(s) == old@Flushed(Copy1(s)) && Copy2(s) == old@Flushed(Copy2(s)) {}
      }
      forall c | 2 <= c < g.Limit() ensures OnDisk(c, data[c]) { assert old@Flushed(OnDisk(c, data[c])); }
    }

    /** Entry `clus` of the table, without its top four bits (fat.c:235-242). */
    method FatGet(clus: nat) returns (val: nat)
      requires Valid() && clus < g.Limit()
      modifies this`dirty, this`cacheSec, disk, fatCache
      ensures Valid() && val == fat[clus]
      ensures (old(Mirrored()) ==> Mirrored()) && (dirty ==> old(dirty))
    {
      hide Valid, Mirrored, DataShape, R32;
      var off := clus * 4;
      EntryPlace(clus);
      EntrySector(clus);
      FatLoad(off / SECTOR);
      CachedEntry(clus);
      val := R32(fatCache[..], off % SECTOR) % 0x1000_0000;
    }

    lemma EntrySector(clus: nat)
      requires Valid() && clus < g.Limit()
      ensures clus / 128 < g.fatSz
    {
      hide TableOk, OnDisk;
    }

    lemma CachedEntry(clus: nat)
      requires Valid() && clus < g.Limit() && cacheSec == clus / 128
      ensures clus < |fat| && R32(fatCache[..], clus % 128 * 4) % 0x1000_0000 == fat[clus]
    {
      hide OnDisk, R32;
      assert Spells(FatSector(clus / 128), clus / 128, fat, top);
    }

    /** Change the low 28 bits of entry `clus` (fat.c:244-254). */
    method FatSet(clus: nat, val: nat)
      requires Valid() && clus < g.Limit() && val < 0x1_0000_0000
      modifies this`dirty, this`cacheSec, this`fat, disk, fatCache
      ensures Valid() && fat == old(fat)[clus := val % 0x1000_0000]
      ensures old(Mirrored()) ==> Mirrored()
    {
      var off := clus * 4;
      EntryPlace(clus);
      FatLoad(off / SECTOR);
      StoreEntry(clus / 128, clus % 128, off % SECTOR, val);
    }

    /** The in-place half of fat_set, on the sector just loaded (fat.c:250-252). */
    method StoreEntry(sec: nat, ghost e: nat, o: nat, val: nat)
      requires Valid() && sec < g.fatSz && cacheSec == sec && e < 128 && o == e * 4 && val < 0x1_0000_0000
      modifies this`dirty, this`fat, fatCache
      ensures Valid() && fat == old(fat)[sec * 128 + e := val % 0x1000_0000]
      ensures old(Mirrored()) ==> Mirrored()
    {
      hide Spells, OnDisk, R32, W32;
      var cur := R32(fatCache[..], o);
      assert Spells(fatCache[..], sec, fat, top) by { assert Spells(FatSector(sec), sec, fat, top); }
      SpellsSet(fatCache[..], sec, e, val % 0x1000_0000, fat, top);
      PutW32(fatCache, o, cur / 0x1000_0000 * 0x1000_0000 + val % 0x1000_0000);
      dirty := true;
      fat := fat[sec * 128 + e := val % 0x1000_0000];
      forall s: nat | s < g.fatSz ensures Spells(FatSector(s), s, fat, top) {
        if s != sec {
          SpellsElsewhere(old(FatSector(s)), s, old(fat), top, sec * 128 + e, val % 0x1000_0000);
        }
      }
    }

    /** Fill the buffer with cluster `clus`, unless it already holds it (fat.c:262-276). */
    method ReadClus(clus: nat) returns (ok: bool)
      requires Valid() && (2 <= clus < EOC ==> clus < g.Limit())
      modifies this`loaded, clusBuf
      ensures Valid() && ok == (2 <= clus < EOC)
      ensures ok ==> clusBuf[..] == data[clus] && loaded == clus
      ensures !ok ==> loaded == old(loaded)
    {
      if clus < 2 || clus >= EOC {
        return false;
      }
      if loaded == clus {
        return true;
      }
      ClustersApart(g, clus, clus);
      Rd(g.ClusLba(clus), g.spc, clusBuf);
      assert OnDisk(clus, data[clus]);
      SameSectors(clusBuf[..], data[clus], g.spc);
      loaded := clus;
      ok := true;
    }

    /** Write the buffer to cluster `clus` (fat.c:278-289). The buffer may hold anything on entry. */
    method WriteClus(clus: nat) returns (ok: bool)
      requires ValidButBuffer() && (2 <= clus < EOC ==> clus < g.Limit())
      modifies this`loaded, this`data, disk
      ensures ok == (2 <= clus < EOC)
      ensures ok ==> Valid() && data == old(data)[clus := clusBuf[..]] && loaded == clus
      ensures !ok ==> ValidButBuffer() && data == old(data)
      ensures old(Mirrored()) ==> Mirrored()
    {
      if clus < 2 || clus >= EOC {
        return false;
      }
      ClustersApart(g, clus, clus);
      Wr(g.ClusLba(clus), g.spc, clusBuf);
      data := data[clus := clusBuf[..]];
      loaded := clus;
      TablesKept();
      assert OnDisk(clus, data[clus]);
      forall c | 2 <= c < g.Limit() && c != clus ensures OnDisk(c, data[c]) {
        ClustersApart(g, clus, c);
        ClustersApart(g, c, clus);
        assert old(OnDisk(c, data[c]));
      }
      ok := true;
    }

    // -------------------------------------------------------------- clusters

    /** One pass of alloc_clus over [begin, end) (fat.c:315-323). */
    method ScanPass(begin: nat, end: nat) returns (r: Search)
      requires Valid() && begin <= end <= g.Limit()
      modifies this`dirty, this`cacheSec, disk, fatCache
      ensures Valid() && r == Scan(fat, begin, end)
      ensures (old(Mirrored()) ==> Mirrored()) && (dirty ==> old(dirty))
    {
      var c := begin;
      while c < end
        invariant Valid() && begin <= c <= end && Scan(fat, c, end) == Scan(fat, begin, end)
        invariant (old(Mirrored()) ==> Mirrored()) && (dirty ==> old(dirty))
      {
        var ent := FatGet(c);
        if ent == BAD {
          return BadMark;
        }
        if ent == 0 {
          return Found(c);
        }
        c := c + 1;
      }
      r := Full;
    }

    /** Next-fit allocation of a zeroed cluster, 0 when there is none (fat.c:305-342). */
    method AllocClus() returns (c: nat)
      requires Valid()
      modifies this`dirty, this`cacheSec, this`fat, this`data, this`loaded, this`search, disk, fatCache, clusBuf
      ensures Valid()
      ensures match NextFit(old(fat), old(search), g.Limit())
              case Found(f) =>
                && c == f && fat == old(fat)[f := EOC_MARK] && data == old(data)[f := Zeros(g.ClusterBytes())]
                && search == f + 1 && !dirty
              case _ => c == 0 && fat == old(fat) && data == old(data)
      ensures (old(Mirrored()) ==> Mirrored()) && (dirty ==> old(dirty))
    {
      hide Valid, Mirrored, DataShape, Scan, FatMaxClus;
      MaxIsTotal(g);
      var cap := FatMaxClus(g.fatSz, g.total);
      var start := search;
      if start < 3 || start >= cap + 2 {
        start := 3;
      }
      var r := ScanPass(start, cap + 2);
      if r.Full? {
        r := ScanPass(3, start);
      }
      if !r.Found? {
        return 0;
      }
      c := r.c;
      TakeClus(c);
      search := c + 1;
    }

    /** Mark a free cluster and zero it on disk (fat.c:324-335). */
    method TakeClus(c: nat)
      requires Valid() && 3 <= c < g.Limit()
      modifies this`dirty, this`cacheSec, this`fat, this`data, this`loaded, disk, fatCache, clusBuf
      ensures Valid() && !dirty && fat == old(fat)[c := EOC_MARK] && data == old(data)[c := Zeros(g.ClusterBytes())]
      ensures old(Mirrored()) ==> Mirrored()
    {
      FatSet(c, EOC_MARK);
      forall i | 0 <= i < clusBuf.Length { clusBuf[i] := 0; }
      assert clusBuf[..] == Zeros(g.ClusterBytes());
      var ok := WriteClus(c);
      FatFlush();
    }

    /** Clear every entry a walk from `clus` reaches, on any table in range, cyclic or not (fat.c:344-354). */
    method FreeChain(clus: nat)
      requires Valid() && InRange(fat, g.Limit()) && (InChain(clus) ==> clus < g.Limit())
      modifies this`dirty, this`cacheSec, this`fat, disk, fatCache
      ensures Valid() && !dirty && |fat| == |old(fat)|
      ensures forall k :: 0 <= k < |fat| ==> fat[k] == if Reaches(old(fat), clus, k) then 0 else old(fat)[k]
      ensures old(Mirrored()) ==> Mirrored()
    {
      hide Valid, Mirrored, DataShape;
      var c: nat := clus;
      ghost var cleared: set<nat> := {};
      while c >= 2 && c < EOC
        invariant Valid() && InRange(fat, g.Limit()) && (InChain(c) ==> c < g.Limit())
        invariant |fat| == |old(fat)|
        invariant forall k :: 0 <= k < |fat| ==> fat[k] == if k in cleared then 0 else old(fat)[k]
        invariant forall k: nat :: Reaches(old(fat), clus, k) <==> k in cleared || Reaches(fat, c, k)
        invariant old(Mirrored()) ==> Mirrored()
        decreases Used(fat), if InChain(c) then 1 else 0
      {
        ghost var was := fat;
        var next := FatGet(c);
        FatSet(c, 0);
        ReachesStepAll(was, c);
        cleared := cleared + {c};
        if next != 0 { UsedClear(was, c); } else { assert fat == was; }
        c := next;
      }
      assert forall k: nat :: !Reaches(fat, c, k);
      FatFlush();
    }

    // -------------------------------------------------------------- file contents

    /** Allocate, link and write a chain that stores `src` (fat.c:904-936). `ch` is that chain. */
    method WriteChain(src: seq<byte>) returns (ok: bool, first: nat, ghost ch: seq<nat>)
      requires Valid() && NoBad(fat, g.Limit())
      modifies this`dirty, this`cacheSec, this`fat, this`data, this`loaded, this`search, disk, fatCache, clusBuf
      ensures Valid() && Growing(old(fat), fat, g.Limit(), ch)
      ensures |data| == |old(data)| && forall c :: 0 <= c < |data| && c !in ch ==> data[c] == old(data)[c]
      ensures ok <==> |FreeSet(old(fat), g.Limit())| >= NumClus(|src|, g.ClusterBytes())
      ensures ok ==> first == (if ch == [] then 0 else ch[0]) && Stores(data, g.ClusterBytes(), ch, src)
      ensures |ch| == if ok then NumClus(|src|, g.ClusterBytes()) else |FreeSet(old(fat), g.Limit())|
      ensures StartsAt(old(fat), old(search), g.Limit(), ch)
      ensures ok ==> |FreeSet(fat, g.Limit())| == |FreeSet(old(fat), g.Limit())| - NumClus(|src|, g.ClusterBytes())
      ensures (old(Mirrored()) ==> Mirrored()) && (ok ==> !dirty)
    {
      hide Valid, StartsAt, NoBad, Written, Stores, Mirrored, FreeSet, DataShape, Growing, Chunks;
      var prev;
      ok, first, prev, ch := WritePieces(src);
      WrittenStores(old(data), data, g.ClusterBytes(), ch, src);
      if !ok {
        return;
      }
      if prev != 0 {
        GrowingEnd(old(fat), fat, g.Limit(), ch);
        FatSet(prev, EOC_MARK);
      }
      FatFlush();
    }

    /** The loop of fat_write: false as soon as no cluster is free (fat.c:904-932). */
    method WritePieces(src: seq<byte>) returns (ok: bool, first: nat, prev: nat, ghost ch: seq<nat>)
      requires Valid() && NoBad(fat, g.Limit())
      modifies this`dirty, this`cacheSec, this`fat, this`data, this`loaded, this`search, disk, fatCache, clusBuf
      ensures Valid() && Growing(old(fat), fat, g.Limit(), ch) && Ends(ch, first, prev)
      ensures Written(old(data), data, g.ClusterBytes(), ch, Chunks(src, g.ClusterBytes()))
      ensures ok <==> |FreeSet(old(fat), g.Limit())| >= NumClus(|src|, g.ClusterBytes())
      ensures ok ==> |ch| == |Chunks(src, g.ClusterBytes())|
      ensures !ok ==> |ch| == |FreeSet(old(fat), g.Limit())|
      ensures StartsAt(old(fat), old(search), g.Limit(), ch)
      ensures ok ==> |FreeSet(fat, g.Limit())| == |FreeSet(old(fat), g.Limit())| - NumClus(|src|, g.ClusterBytes())
      ensures old(Mirrored()) ==> Mirrored()
    {
      hide Valid, NoBad, Mirrored, FreeSet, DataShape, Growing, Written, Chunks, NumClus, Cut, Ends;
      first, prev, ch := 0, 0, [];
      var left: nat, at: nat := |src|, 0;
      var cb := g.ClusterBytes();
      GrowingNone(fat, g.Limit());
      WrittenNone(data, cb, Chunks(src, cb));
      CutNone(src, cb);
      EndsNone();
      while left > 0
        invariant Valid() && at + left == |src| && (old(Mirrored()) ==> Mirrored())
        invariant Growing(old(fat), fat, g.Limit(), ch) && NoBad(fat, g.Limit()) && Ends(ch, first, prev)
        invariant if ch == [] then fat == old(fat) && search == old(search)
                  else StartsAt(old(fat), old(search), g.Limit(), ch)
        invariant |FreeSet(fat, g.Limit())| == |FreeSet(old(fat), g.Limit())| - |ch|
        invariant Written(old(data), data, cb, ch, Chunks(src, cb)) && Cut(src, cb, at, |ch|)
      {
        CutStep(src, cb, at, |ch|);
        var chunk := Min(left, cb);
        ghost var was := data;
        var c := AppendPiece(first, prev, src[at..at+chunk], old(fat), ch);
        if c == 0 {
          return false, first, prev, ch;
        }
        WrittenStep(old(data), was, cb, ch, Chunks(src, cb), c);
        EndsStep(ch, first, prev, c);
        StartsMore(old(fat), old(search), ch, c);
        if first == 0 {
          first := c;
        }
        at := at + chunk;
        left := left - chunk;
        prev := c;
        ch := ch + [c];
      }
      CutAll(src, cb, |ch|);
      ok := true;
    }

    lemma StartsMore(fat0: seq<nat>, hint: nat, ch: seq<nat>, c: nat)
      requires StartsAt(fat0, hint, g.Limit(), if ch == [] then [c] else ch)
      ensures StartsAt(fat0, hint, g.Limit(), ch + [c])
    {
      hide NextFit;
    }

    /** One turn of the loop: allocate a cluster, link it behind `prev`, write `piece` to it (fat.c:912-931). */
    method AppendPiece(ghost first: nat, prev: nat, piece: seq<byte>, ghost fat0: seq<nat>, ghost ch: seq<nat>)
      returns (c: nat)
      requires Valid() && NoBad(fat, g.Limit()) && Growing(fat0, fat, g.Limit(), ch)
      requires Ends(ch, first, prev) && |piece| <= g.ClusterBytes()
      modifies this`dirty, this`cacheSec, this`fat, this`data, this`loaded, this`search, disk, fatCache, clusBuf
      ensures Valid() && NoBad(fat, g.Limit())
      ensures c == 0 ==> fat == old(fat) && data == old(data) && |FreeSet(fat, g.Limit())| == 0
      ensures StartsAt(old(fat), old(search), g.Limit(), if c == 0 then [] else [c])
      ensures c != 0 ==>
          c !in ch && c < |data| && Growing(fat0, fat, g.Limit(), ch + [c])
            && data == old(data)[c := Pad(piece, g.ClusterBytes())]
      ensures c != 0 ==> |FreeSet(fat, g.Limit())| == |FreeSet(old(fat), g.Limit())| - 1
      ensures old(Mirrored()) ==> Mirrored()
    {
      hide Valid, Growing, NoBad, Mirrored, DataShape, FreeSet, StartsAt, Pad, Ends, Linked;
      c := AllocFree();
      if c == 0 {
        return;
      }
      GrowingStep(fat0, old(fat), g.Limit(), ch, c);
      GrowingSpace(fat0, old(fat), g.Limit(), ch, c);
      LinkPiece(first, prev, c, old(fat), ch);
      StorePiece(c, piece);
      assert data == old(data)[c := Pad(piece, g.ClusterBytes())];
    }

    /** Link a new cluster behind the last one of the chain, if there is one (fat.c:919-921). */
    method LinkPiece(ghost first: nat, prev: nat, c: nat, ghost was: seq<nat>, ghost ch: seq<nat>)
      requires Valid() && Ends(ch, first, prev) && c < g.Limit() && (ch != [] ==> ch[|ch|-1] < g.Limit())
      requires c < |was| && (ch != [] ==> ch[|ch|-1] < |was|) && fat == was[c := EOC_MARK]
      modifies this`dirty, this`cacheSec, this`fat, disk, fatCache
      ensures Valid() && fat == Linked(was, ch, c)
      ensures old(Mirrored()) ==> Mirrored()
    {
      hide Valid, Mirrored;
      if prev != 0 {
        assert ch != [] && prev == ch[|ch|-1];
        FatSet(prev, c);
      }
    }

    /** Write one piece, padded with zeros, to cluster `c` (fat.c:922-928). */
    method StorePiece(c: nat, piece: seq<byte>)
      requires Valid() && 2 <= c < g.Limit() && |piece| <= g.ClusterBytes()
      modifies this`data, this`loaded, disk, clusBuf
      ensures Valid() && data == old(data)[c := Pad(piece, g.ClusterBytes())]
      ensures old(Mirrored()) ==> Mirrored()
    {
      forall i | 0 <= i < clusBuf.Length { clusBuf[i] := 0; }
      forall i | 0 <= i < |piece| { clusBuf[i] := piece[i]; }
      assert clusBuf[..] == Pad(piece, g.ClusterBytes());
      var ok := WriteClus(c);
    }

    /** Copy out `n` bytes of the chain that starts at `clus` (fat.c:811-824). */
    method ReadChain(clus: nat, n: nat, buf: array<byte>) returns (got: nat)
      requires Valid() && InRange(fat, g.Limit()) && (InChain(clus) ==> clus < g.Limit())
      requires n <= buf.Length && buf != clusBuf && buf != fatCache
      modifies this`dirty, this`cacheSec, this`loaded, disk, fatCache, clusBuf, buf
      ensures Valid()
      ensures var r := ReadAll(clus, n);
              got == |r| && buf[..got] == r && buf[got..] == old(buf[got..])
      ensures (old(Mirrored()) ==> Mirrored()) && (dirty ==> old(dirty))
    {
      hide Valid, Mirrored, DataShape, InRange, ReadAll, Min, Copied;
      var left: nat, c: nat := n, clus;
      var cb := g.ClusterBytes();
      got := 0;
      ghost var all, orig, out := ReadAll(clus, n), buf[..], [];
      NoneCopied(orig, all);
      while left > 0 && c >= 2 && c < EOC
        invariant Valid() && (InChain(c) ==> c < g.Limit()) && got + left == n && (old(Mirrored()) ==> Mirrored())
            && (dirty ==> old(dirty))
        invariant Copied(buf[..], orig, out, all, ReadAll(c, left), got)
      {
        ghost var piece;
        var chunk := Min(left, cb);
        piece, c := CopyPiece(c, left, buf, got, orig, out, all);
        out := out + piece;
        got := got + chunk;
        left := left - chunk;
      }
      ReadDone(c, left);
      AllCopied(buf[..], orig, out, all, got);
      assert buf[..got] == buf[..][..got] && buf[got..] == buf[..][got..] && old(buf[got..]) == orig[got..];
    }

    /** The first `got` bytes of the buffer are `out`, the rest is as it was, and `rest` is still to come. */
    static ghost predicate Copied(now: seq<byte>, orig: seq<byte>, out: seq<byte>, all: seq<byte>, rest: seq<byte>,
                                  got: nat) {
      |out| == got <= |orig| && now == out + orig[got..] && all == out + rest
    }

    static lemma NoneCopied(orig: seq<byte>, all: seq<byte>)
      ensures Copied(orig, orig, [], all, all, 0)
    {
    }

    static lemma AllCopied(now: seq<byte>, orig: seq<byte>, out: seq<byte>, all: seq<byte>, got: nat)
      requires Copied(now, orig, out, all, [], got)
      ensures got <= |now| == |orig| && got == |all| && now[..got] == all && now[got..] == orig[got..]
    {
    }

    static lemma MoreCopied(was: seq<byte>, now: seq<byte>, orig: seq<byte>, out: seq<byte>, all: seq<byte>,
                            piece: seq<byte>, rest: seq<byte>, got: nat)
      requires Copied(was, orig, out, all, piece + rest, got) && got + |piece| <= |orig|
      requires now == was[..got] + piece + was[got + |piece|..]
      ensures Copied(now, orig, out + piece, all, rest, got + |piece|)
    {
    }

    /** One turn of the loop: copy a cluster's share and follow the chain (fat.c:815-823). */
    method CopyPiece(c: nat, left: nat, buf: array<byte>, at: nat, ghost orig: seq<byte>, ghost out: seq<byte>,
                     ghost all: seq<byte>)
      returns (ghost piece: seq<byte>, next: nat)
      requires Valid() && InRange(fat, g.Limit()) && InChain(c) && c < g.Limit() && left > 0
      requires buf != clusBuf && buf != fatCache && at + left <= buf.Length == |orig|
      requires Copied(buf[..], orig, out, all, ReadAll(c, left), at)
      modifies this`dirty, this`cacheSec, this`loaded, disk, fatCache, clusBuf, buf
      ensures Valid() && (InChain(next) ==> next < g.Limit())
      ensures 0 < |piece| == Min(left, g.ClusterBytes()) <= left
      ensures Copied(buf[..], orig, out + piece, all, ReadAll(next, left - |piece|), at + |piece|)
      ensures (old(Mirrored()) ==> Mirrored()) && (dirty ==> old(dirty))
    {
      hide Valid, Mirrored, DataShape, InRange, ReadAll, Copied;
      var ok := ReadClus(c);
      var chunk := Min(left, g.ClusterBytes());
      piece := data[c][..chunk];
      ReadStep(c, left);
      ghost var was := buf[..];
      CopyOut(buf, at, chunk);
      MoreCopied(was, buf[..], orig, out, all, piece, ReadAll(fat[c], left - chunk), at);
      next := FatGet(c);
    }

    /** ReadFrom on this volume. */
    ghost function ReadAll(c: nat, left: nat): seq<byte>
      requires Basic() && InRange(fat, g.Limit()) && (InChain(c) ==> c < g.Limit())
      reads this`fat, this`data
    {
      ReadFrom(fat, data, g.ClusterBytes(), c, left)
    }

    lemma ReadStep(c: nat, left: nat)
      requires Basic() && InRange(fat, g.Limit()) && InChain(c) && c < g.Limit() && left > 0
      ensures InChain(fat[c]) ==> fat[c] < g.Limit()
      ensures var m := Min(left, g.ClusterBytes());
              m <= |data[c]| && ReadAll(c, left) == data[c][..m] + ReadAll(fat[c], left - m)
    {
    }

    lemma ReadDone(c: nat, left: nat)
      requires Basic() && InRange(fat, g.Limit()) && (InChain(c) ==> c < g.Limit()) && (left == 0 || !InChain(c))
      ensures ReadAll(c, left) == []
    {
    }

    /** memcpy from the cluster buffer (fat.c:820). */
    method CopyOut(buf: array<byte>, at: nat, n: nat)
      requires at + n <= buf.Length && n <= clusBuf.Length && buf != clusBuf
      modifies buf
      ensures buf[..] == old(buf[..])[..at] + clusBuf[..n] + old(buf[..])[at + n..]
    {
      forall i | 0 <= i < n { buf[at + i] := clusBuf[i]; }
    }

    // -------------------------------------------------------------- directory slots

    ghost function Per(): nat { g.spc * 16 }

    /** The caches are sound and the table is made of the chains of `L`. */
    ghost predicate Chained()
      reads this`fat, this`top, this`data, this`cacheSec, this`dirty, this`loaded, this`L, disk, fatCache, clusBuf
      ensures Chained() ==> Valid() && Fits(data, L, Per()) && InRange(fat, g.Limit()) && NoBad(fat, g.Limit())
    {
      && Valid() && ChainsOk(fat, g.Limit(), L) && Fits(data, L, Per()) && InRange(fat, g.Limit())
           && NoBad(fat, g.Limit())
    }

    /** Reading keeps the chains. */
    twostate lemma StillChained()
      requires old(Chained()) && Valid() && fat == old(fat) && data == old(data) && L == old(L)
      ensures Chained()
    {
    }

    /** Where a walk down the chain of `h` stands after `i` hops, and where it goes next. */
    lemma ChainStep(h: nat, i: nat)
      requires Chained() && h in L.chains && i < |L.chains[h]|
      ensures var ch := L.chains[h];
              && ch[0] == h && 2 <= ch[i] < g.Limit()
              && (if i + 1 < |ch| then fat[ch[i]] == ch[i+1] && InChain(ch[i+1]) else !InChain(fat[ch[i]]))
    {
      ChainsAreChains(fat, g.Limit(), L, h);
      assert HeadOk(L, h);
    }

    lemma ChainNonEmpty(h: nat)
      requires Chained() && h in L.chains
      ensures |L.chains[h]| > 0 && Sized(data, L.chains[h], Per()) && PerOk(Per()) && Per() == g.ClusterBytes() / 32
    {
      assert HeadOk(L, h);
    }

    /** The walk both dir_get and dir_put make, `skip` clusters down the chain; 0 past its end (fat.c:513-521). */
    method DirWalk(clus: nat, skip: nat) returns (c: nat)
      requires Chained() && clus in L.chains
      modifies this`dirty, this`cacheSec, disk, fatCache
      ensures Chained() && if skip < |L.chains[clus]| then c == L.chains[clus][skip] && InChain(c) && c < g.Limit()
          else c == 0
      ensures (old(Mirrored()) ==> Mirrored()) && (dirty ==> old(dirty))
    {
      hide Valid, Chained, Mirrored, DataShape, Fits, InRange, NoBad, Sized;
      ChainNonEmpty(clus);
      ChainStep(clus, 0);
      ghost var ch := L.chains[clus];
      c := clus;
      var i := 0;
      while i < skip
        invariant 0 <= i <= skip && i < |ch| && c == ch[i] && InChain(c) && c < g.Limit()
        invariant Chained() && (old(Mirrored()) ==> Mirrored()) && (dirty ==> old(dirty))
      {
        ChainStep(clus, i);
        c := FatGet(c);
        StillChained();
        if c < 2 || c >= EOC {
          return 0;
        }
        i := i + 1;
        ChainStep(clus, i);
      }
    }

    /** Entry `index` of directory `clus`; 0 past its last cluster (fat.c:511-527). */
    method DirGet(clus: nat, index: nat) returns (r: int, ent: Entry)
      requires Chained() && clus in L.chains
      modifies this`dirty, this`cacheSec, this`loaded, disk, fatCache, clusBuf
      ensures Chained() && Sized(data, L.chains[clus], Per())
      ensures var s := SlotsAt(data, L, Per(), clus);
              if index < |s| then r == 1 && ent == s[index] else r == 0
      ensures (old(Mirrored()) ==> Mirrored()) && (dirty ==> old(dirty))
    {
      hide Valid, Chained, Mirrored, DataShape, Fits, InRange, NoBad, Sized, DirSlots;
      ChainNonEmpty(clus);
      ent := seq(32, _ => 0);
      var per := g.ClusterBytes() / 32;
      SlotBound(index, per, |L.chains[clus]|);
      var c := DirWalk(clus, index / per);
      if c == 0 {
        return 0, ent;
      }
      SlotPlace(data, L.chains[clus], per, index);
      var ok := ReadClus(c);
      StillChained();
      var q := index % per;
      assert |clusBuf[..]| == per * 32 && |SlotsOf(data[c])| == per;
      ent := clusBuf[q * 32 .. q * 32 + 32];
      assert ent == SlotsOf(data[c])[q];
      r := 1;
    }

    /** Where slot `index` of directory `d` lies. */
    lemma SlotHome(d: nat, index: nat)
      requires Chained() && d in L.chains
      ensures PerOk(Per()) && Sized(data, L.chains[d], Per()) && g.ClusterBytes() / 32 == Per()
          && clusBuf.Length == Per() * 32
      ensures index % Per() < Per()
      ensures index / Per() < |L.chains[d]| <==> index < |SlotsAt(data, L, Per(), d)|
    {
      hide Valid, ChainsOk, DirSlots;
      ChainNonEmpty(d);
      SlotBound(index, Per(), |L.chains[d]|);
    }

    /** Overwrite entry `index` of directory `clus` (fat.c:530-546). */
    method DirPut(clus: nat, index: nat, ent: Entry) returns (ok: bool)
      requires Chained() && clus in L.depth && clus in L.chains && index < |SlotsAt(data, L, Per(), clus)|
      modifies this`dirty, this`cacheSec, this`loaded, this`data, disk, fatCache, clusBuf
      ensures Chained() && ok && |data| == |old(data)| && PutAt(old(data), data, L, Per(), clus, index, ent)
      ensures (old(Mirrored()) ==> Mirrored()) && (dirty ==> old(dirty))
    {
      hide Valid, Chained, ChainsOk, Mirrored, DataShape, Fits, InRange, NoBad, Sized, DirSlots, PutAt, SlotsOf,
           SlotsAt;
      SlotHome(clus, index);
      ChainedFacts();
      var per := g.ClusterBytes() / 32;
      var c := DirWalk(clus, index / per);
      if c == 0 {
        return false;
      }
      ok := ReadClus(c);
      OverwriteSlot(index % per, ent);
      assert |old(data)[c]| == clusBuf.Length;
      SlotsOfPut(old(data)[c], clusBuf[..], index % per, ent);
      ok := WriteClus(c);
      ItemsPut(fat, old(data), g.Limit(), L, per, clus, index, clusBuf[..], ent);
      Rechain();
    }

    lemma ChainedFacts()
      requires Chained()
      ensures ChainsOk(fat, g.Limit(), L) && DataShape(data, g.Limit(), Per()) && Fits(data, L, Per())
    {
    }

    lemma Rechain()
      requires Valid() && ChainsOk(fat, g.Limit(), L) && Fits(data, L, Per())
      ensures Chained()
    {
      hide TableOk, OnDisk, Valid, ChainsOk, InRange, NoBad;
      ChainsInRange(fat, g.Limit(), L);
    }

    /** memcpy of an entry into the cluster buffer (fat.c:544). */
    method OverwriteSlot(q: nat, ent: Entry)
      requires q * 32 + 32 <= clusBuf.Length
      modifies clusBuf
      ensures forall b :: 0 <= b < clusBuf.Length ==>
                clusBuf[b] == if q * 32 <= b < q * 32 + 32 then ent[b - q * 32] else old(clusBuf[b])
    {
      forall b | q * 32 <= b < q * 32 + 32 { clusBuf[b] := ent[b - q * 32]; }
    }

    // -------------------------------------------------------------- directories

    /** Find `name` in directory `dir` (fat.c:549-599). */
    method DirFind(dir: nat, name: Name) returns (found: bool, info: Info, slot: nat)
      requires Chained() && dir in L.chains
      modifies this`dirty, this`cacheSec, this`loaded, disk, fatCache, clusBuf
      ensures Chained() && Sized(data, L.chains[dir], Per())
      ensures var s := SlotsAt(data, L, Per(), dir);
              && (found <==> Find(s, name).Some?)
              && (found ==> slot == Find(s, name).value && info == InfoAt(s, slot))
      ensures (old(Mirrored()) ==> Mirrored()) && (dirty ==> old(dirty))
    {
      hide Valid, Chained, Mirrored, DataShape, Fits, InRange, NoBad, Sized, DirSlots, SlotsAt, FindFrom, PendAt,
           Dotted, LongName, NameEq, EntClus, EntSize;
      ChainNonEmpty(dir);
      ghost var s := SlotsAt(data, L, Per(), dir);
      info, slot := Info([], false, 0, 0), 0;
      PendNone(s);
      var lfn: seq<Entry> := [];
      var i := 0;
      while i < MAX_SLOTS
        invariant Chained() && (old(Mirrored()) ==> Mirrored()) && (dirty ==> old(dirty))
        invariant 0 <= i <= |s| && i <= MAX_SLOTS && lfn == PendAt(s, i) && FindFrom(s, name, 0) == FindFrom(s, name, i)
      {
        var r, ent := DirGet(dir, i);
        FindStops(s, name, i);
        if r <= 0 {
          return false, info, slot;
        }
        if ent[0] == 0 {
          return false, info, slot;
        }
        PendNext(s, i);
        var hit;
        hit, lfn, info := Examine(ent, lfn, name, s, i);
        if hit {
          return true, info, i;
        }
        FindNext(s, name, i);
        i := i + 1;
      }
      FindStops(s, name, i);
      found := false;
    }

    lemma FindStops(s: Slots, name: Name, i: nat)
      requires i <= |s|
      ensures i == |s| || i >= MAX_SLOTS || Ended(s[i]) ==> FindFrom(s, name, i) == None
      ensures i < |s| && i < MAX_SLOTS && !Ended(s[i]) && Matches(s, i, name) ==> FindFrom(s, name, i) == Some(i)
    {
    }

    /** One turn of dir_find on an entry that is not an end mark (fat.c:562-597). */
    static method Examine(ent: Entry, lfn: seq<Entry>, name: Name, ghost s: Slots, ghost i: nat)
      returns (hit: bool, lfn': seq<Entry>, info: Info)
      requires i < |s| && s[i] == ent && !Ended(ent) && lfn == PendAt(s, i)
      ensures hit == Matches(s, i, name) && (hit ==> info == InfoAt(s, i))
      ensures lfn' == if IsLfn(ent) then (if |lfn| < 8 then lfn + [ent] else lfn) else []
    {
      hide PendAt, Dotted, LongName, NameEq;
      hit, lfn', info := false, [], Info([], false, 0, 0);
      if ent[0] == GONE {
        return;
      }
      if ent[11] == ATTR_LFN {
        lfn' := if |lfn| < 8 then lfn + [ent] else lfn;
        return;
      }
      if ent[11] / 8 % 2 == 1 {
        return;
      }
      var shortn := Decode83(ent);
      var longn := [];
      if lfn != [] {
        longn := DecodeLfn(lfn);
      }
      NoFragments();
      if !NameEq(shortn, name) && (longn == [] || !NameEq(longn, name)) {
        return;
      }
      info := Info(if longn != [] then longn else shortn, ent[11] / 16 % 2 == 1, R32(ent, 28), EntClus(ent));
      hit := true;
    }

    static lemma NoFragments()
      ensures LongName([]) == []
    {
    }

    /** First free slot among the first 4096; otherwise where the scan ended (fat.c:745-776). */
    method FirstFree(dir: nat) returns (found: bool, i: nat)
      requires Chained() && dir in L.chains
      modifies this`dirty, this`cacheSec, this`loaded, disk, fatCache, clusBuf
      ensures Chained() && Sized(data, L.chains[dir], Per())
      ensures var s := SlotsAt(data, L, Per(), dir);
              && i <= |s| && i <= MAX_SLOTS && (forall j :: 0 <= j < i ==> !FreeSlot(s[j]))
              && (if found then i < |s| && i < MAX_SLOTS && FreeSlot(s[i]) else i == |s| || i == MAX_SLOTS)
      ensures (old(Mirrored()) ==> Mirrored()) && (dirty ==> old(dirty))
    {
      hide Valid, Chained, Mirrored, DataShape, Fits, InRange, NoBad, Sized, DirSlots, SlotsAt;
      ChainNonEmpty(dir);
      ghost var s := SlotsAt(data, L, Per(), dir);
      i := 0;
      while i < MAX_SLOTS
        invariant Chained() && (old(Mirrored()) ==> Mirrored()) && (dirty ==> old(dirty))
        invariant i <= |s| && i <= MAX_SLOTS && forall j :: 0 <= j < i ==> !FreeSlot(s[j])
      {
        var r, ent := DirGet(dir, i);
        if r == 0 {
          return false, i;
        }
        if ent[0] == 0 || ent[0] == GONE {
          return true, i;
        }
        i := i + 1;
      }
      found := false;
    }

    static lemma Overwrite(fat: seq<nat>, nw: nat, last: nat)
      requires nw < |fat| && last < |fat| && nw != last
      ensures fat[nw := EOC_MARK][last := nw][nw := EOC_MARK] == fat[nw := EOC_MARK][last := nw]
    {
    }

    /** The last cluster of a chain (fat.c:753-758). */
    method DirLast(dir: nat) returns (last: nat)
      requires Chained() && dir in L.chains
      modifies this`dirty, this`cacheSec, disk, fatCache
      ensures Chained() && L.chains[dir] != [] && last == LastOf(L, dir) && 2 <= last < g.Limit()
      ensures (old(Mirrored()) ==> Mirrored()) && (dirty ==> old(dirty))
    {
      hide Valid, Chained, Mirrored, DataShape, Fits, InRange, NoBad, Sized;
      ChainNonEmpty(dir);
      ghost var ch, i := L.chains[dir], 0;
      ChainStep(dir, 0);
      var c: nat := dir;
      last := c;
      while c >= 2 && c < EOC
        invariant Chained() && (old(Mirrored()) ==> Mirrored()) && (dirty ==> old(dirty)) && i <= |ch|
        invariant if i < |ch| then c == ch[i] && InChain(c) && c < g.Limit()
            else !InChain(c) && last == ch[|ch|-1] && 2 <= last < g.Limit()
        decreases |ch| - i
      {
        last := c;
        ChainStep(dir, i);
        c := FatGet(c);
        StillChained();
        i := i + 1;
        if i < |ch| { ChainStep(dir, i); }
      }
    }

    /** alloc_clus on a table without BAD entries: a free cluster whenever there is one. */
    method AllocFree() returns (c: nat)
      requires Valid() && NoBad(fat, g.Limit())
      modifies this`dirty, this`cacheSec, this`fat, this`data, this`loaded, this`search, disk, fatCache, clusBuf
      ensures Valid()
      ensures c == 0 ==> fat == old(fat) && data == old(data) && |FreeSet(fat, g.Limit())| == 0
      ensures StartsAt(old(fat), old(search), g.Limit(), if c == 0 then [] else [c])
      ensures c != 0 ==> 3 <= c < g.Limit() && c < |data| && old(fat)[c] == 0
                         && fat == old(fat)[c := EOC_MARK] && data == old(data)[c := Zeros(g.ClusterBytes())]
      ensures (old(Mirrored()) ==> Mirrored()) && (dirty ==> old(dirty))
    {
      hide Valid, NoBad, Mirrored, DataShape, NextFit;
      NextFitFinds(fat, search, g.Limit());
      c := AllocClus();
      if c == 0 {
        assert FreeSet(fat, g.Limit()) == {};
      }
    }

    /** The table entries of a cluster linked behind `last` (fat.c:763-766). */
    method LinkLast(last: nat, nw: nat)
      requires Valid() && last < g.Limit() && nw < g.Limit()
      modifies this`dirty, this`cacheSec, this`fat, disk, fatCache
      ensures Valid() && last < |old(fat)| && nw < |old(fat)| && fat == old(fat)[last := nw][nw := EOC_MARK] && !dirty
      ensures old(Mirrored()) ==> Mirrored()
    {
      hide Valid, Mirrored;
      FatSet(last, nw);
      FatSet(nw, EOC_MARK);
      FatFlush();
    }

    /** Link a zeroed cluster behind the last one of `dir` (fat.c:752-769). */
    method GrowDir(dir: nat) returns (nw: nat)
      requires Chained() && dir in L.depth
      modifies this`dirty, this`cacheSec, this`fat, this`data, this`loaded, this`search, this`L, disk, fatCache, clusBuf
      ensures Chained() && L.depth == old(L).depth && |fat| == |old(fat)|
      ensures nw == 0 ==> fat == old(fat) && data == old(data) && L == old(L) && |FreeSet(fat, g.Limit())| == 0
      ensures nw != 0 ==> Grew(old(fat), old(data), old(L), fat, data, L, g.Limit(), Per(), dir, nw)
      ensures (old(Mirrored()) ==> Mirrored()) && (dirty ==> old(dirty))
    {
      hide Valid, Chained, Mirrored, DataShape, InRange, NoBad, Sized, ChainsOk, Grew, FreeSet, Fits;
      ChainedFacts();
      ChainNonEmpty(dir);
      ghost var last := LastOf(L, dir);
      var at := DirLast(dir);
      nw := AllocFree();
      if nw == 0 {
        StillChained();
        return;
      }
      FreeOffChains(old(fat), g.Limit(), L, nw);
      assert last in L.chains[dir];
      ItemsGrown(old(fat), old(data), g.Limit(), L, Per(), dir, nw);
      LinkLast(at, nw);
      L := Grown(L, dir, nw);
      Overwrite(old(fat), nw, last);
      Rechain();
    }

    /** A free slot of `dir`, in a new cluster if need be (fat.c:743-777). */
    method DirFreeSlot(dir: nat) returns (ok: bool, slot: nat, ghost nw: nat)
      requires Chained() && dir in L.depth
      modifies this`dirty, this`cacheSec, this`fat, this`data, this`loaded, this`search, this`L, disk, fatCache, clusBuf
      ensures Chained() && L.depth == old(L).depth && |fat| == |old(fat)| && |data| == |old(data)|
      ensures if ok then MaybeGrew(old(fat), old(data), old(L), fat, data, L, g.Limit(), Per(), dir, nw)
                         && FirstSlot(SlotsAt(data, L, Per(), dir), slot)
              else fat == old(fat) && data == old(data) && L == old(L)
      ensures ok <==> HasSlot(SlotsAt(old(data), old(L), Per(), dir), |FreeSet(old(fat), g.Limit())|)
      ensures (old(Mirrored()) ==> Mirrored()) && (dirty ==> old(dirty))
    {
      hide Valid, Chained, Mirrored, DataShape, InRange, NoBad, Sized, ChainsOk, Grew, FreeSet, DirSlots;
      nw := 0;
      var found;
      found, slot := FirstFree(dir);
      if found {
        return true, slot, nw;
      }
      if slot == MAX_SLOTS {
        return false, slot, nw;
      }
      var c := GrowDir(dir);
      if c == 0 {
        return false, slot, nw;
      }
      nw := c;
      GrewSpace(old(fat), old(data), old(L), fat, data, L, g.Limit(), Per(), dir, nw);
      FirstSlotGrown(old(fat), old(data), old(L), fat, data, L, g.Limit(), Per(), dir, nw);
      ok := true;
    }

    /** Add an entry to `dir` (fat.c:779-795). `data1` is what the clusters held before the entry was written. */
    method DirAdd(dir: nat, name: Name, attr: byte, clus: nat, size: nat)
      returns (ok: bool, ghost slot: nat, ghost nw: nat, ghost data1: seq<seq<byte>>)
      requires Chained() && dir in L.depth && name != [] && clus < 0x1_0000_0000 && size < 0x1_0000_0000
      modifies this`dirty, this`cacheSec, this`fat, this`data, this`loaded, this`search, this`L, disk, fatCache, clusBuf
      ensures Chained() && L.depth == old(L).depth && |fat| == |old(fat)| && |data| == |old(data)|
      ensures if ok then
                && Fits(data1, L, Per()) && DataShape(data1, g.Limit(), Per()) && |data1| == |data|
                && MaybeGrew(old(fat), old(data), old(L), fat, data1, L, g.Limit(), Per(), dir, nw)
                && FirstSlot(SlotsAt(data1, L, Per(), dir), slot)
                && PutAt(data1, data, L, Per(), dir, slot, NewEntry(name, attr, clus, size))
              else fat == old(fat) && data == old(data) && L == old(L)
      ensures ok <==> HasSlot(SlotsAt(old(data), old(L), Per(), dir), |FreeSet(old(fat), g.Limit())|)
      ensures (old(Mirrored()) ==> Mirrored()) && (dirty ==> old(dirty))
    {
      hide Valid, Chained, Mirrored, DataShape, InRange, NoBad, Sized, ChainsOk, Grew, MaybeGrew, PutAt, DirSlots,
           NewEntry, HasSlot;
      data1 := data;
      var at;
      ok, at, nw := DirFreeSlot(dir);
      slot, data1 := at, data;
      if !ok {
        return;
      }
      ChainedFacts();
      var ent := BuildEntry(name, attr, clus, size);
      ok := DirPut(dir, at, ent);
    }

    /** The bytes of a new entry (fat.c:785-793). */
    static method BuildEntry(name: Name, attr: byte, clus: nat, size: nat) returns (ent: Entry)
      requires clus < 0x1_0000_0000 && size < 0x1_0000_0000
      ensures ent == NewEntry(name, attr, clus, size)
    {
      var short := Encode83(name);
      ent := short + [attr] + Zeros(20);
      ent := PointEntry(ent, clus, size);
    }

    // -------------------------------------------------------------- files and directories

    /** The caches are sound and the volume is well formed. */
    ghost predicate Healthy()
      reads this`fat, this`top, this`data, this`cacheSec, this`dirty, this`loaded, this`L, disk, fatCache, clusBuf
      ensures Healthy() ==> Chained()
    {
      Chained() && TreeOk(DirItems(data, L, Per()), L, g.rootClus)
    }

    /** free_chain on the chain of a file (fat.c:901-903, 1044-1046). */
    method ReleaseChain(h: nat)
      requires Chained() && (h != 0 ==> h in L.chains && h !in L.depth) && (h == 0 ==> 0 !in L.chains)
      modifies this`dirty, this`cacheSec, this`fat, this`L, disk, fatCache
      ensures Chained() && L == Dropped(old(L), h) && |fat| == |old(fat)| && L.depth == old(L).depth
      ensures AllKept(old(State()), State(), h)
      ensures FreeSet(fat, g.Limit()) == Reusable(old(fat), g.Limit(), old(L), h)
      ensures h == 0 ==> fat == old(fat) && L == old(L)
      ensures DirItems(data, L, Per()) == DirItems(data, old(L), Per())
      ensures (old(Mirrored()) ==> Mirrored()) && (dirty ==> old(dirty))
    {
      hide Valid, Chained, Mirrored, DataShape, InRange, NoBad, Sized, ChainsOk, DirItems, Reaches, Without, SameChain,
           HeadOk;
      ChainedFacts();
      if h != 0 {
        ChainStep0(h);
      }
      FreeChain(h);
      if h != 0 {
        DropChain(old(fat), fat, data, g.Limit(), L, Per(), h);
        DropSpace(old(fat), fat, g.Limit(), L, h);
        L := Without(L, h);
        Rechain();
      } else {
        NothingReached(old(fat));
        assert fat == old(fat);
        SameChains(old(fat), data, L, Per());
        Rechain();
      }
    }

    lemma ChainStep0(h: nat)
      requires Chained() && h in L.chains
      ensures h < g.Limit()
    {
      ChainNonEmpty(h);
      ChainStep(h, 0);
    }

    static lemma NothingReached(fat: seq<nat>)
      ensures forall k: nat :: !Reaches(fat, 0, k)
    {
    }

    static lemma SameChains(fat: seq<nat>, data: seq<seq<byte>>, L: Layout, per: nat)
      requires Fits(data, L, per) && |data| <= |fat|
      ensures forall k :: k in L.chains ==> SameChain(fat, data, L, fat, data, L, k)
    {
      forall k | k in L.chains
        ensures SameChain(fat, data, L, fat, data, L, k) { assert Sized(data, L.chains[k], per); }
    }

    /** Store `src` in a new chain, kept under `ref` (fat.c:904-936). */
    method StoreFile(src: seq<byte>, ghost ref: Ref) returns (ok: bool, first: nat, ghost ch: seq<nat>)
      requires Chained()
      modifies this`dirty, this`cacheSec, this`fat, this`data, this`loaded, this`search, this`L, disk, fatCache, clusBuf
      ensures Chained() && |fat| == |old(fat)| && |data| == |old(data)| && L.depth == old(L).depth
      ensures Distinct(ch) && (ch != [] ==> ch[0] > 0 && ch[0] !in old(L).chains) && L == Joined(old(L), ch, ref)
      ensures AllKept(old(State()), State(), 0)
      ensures DirItems(data, L, Per()) == DirItems(old(data), old(L), Per())
      ensures ok <==> |FreeSet(old(fat), g.Limit())| >= NumClus(|src|, g.ClusterBytes())
      ensures ok ==> first == HeadOf(ch) < g.Limit() && Stores(data, g.ClusterBytes(), ch, src)
      ensures |ch| == if ok then NumClus(|src|, g.ClusterBytes()) else |FreeSet(old(fat), g.Limit())|
      ensures StartsAt(old(fat), old(search), g.Limit(), ch)
      ensures ch == [] ==> State() == old(State())
      ensures ok ==> |FreeSet(fat, g.Limit())| == |FreeSet(old(fat), g.Limit())| - NumClus(|src|, g.ClusterBytes())
      ensures (old(Mirrored()) ==> Mirrored()) && (ok ==> !dirty)
    {
      hide Valid, Chained, Mirrored, DataShape, InRange, NoBad, ChainsOk, DirItems, SameChain, Growing, Stores, NumClus,
           FreeSet, Joined, StartsAt;
      ChainedFacts();
      ok, first, ch := WriteChain(src);
      GrowingElsewhere(old(fat), fat, g.Limit(), ch);
      AddChain(old(fat), fat, old(data), data, g.Limit(), L, Per(), ch, ref);
      if ch == [] {
        GrowingNothing(old(fat), fat, g.Limit());
        JoinedNothing(L, ref);
        assert data == old(data);
      }
      L := Joined(L, ch, ref);
      Rechain();
    }

    static lemma JoinedNothing(T: Layout, ref: Ref)
      ensures Distinct([]) && Joined(T, [], ref) == T
    {
    }

    /** The volume behind the caches. */
    ghost function State(): Vol
      reads this`fat, this`data, this`L
    {
      Vol(fat, data, L)
    }

    /** The slots of every directory. */
    ghost function Tree(): Tree
      requires Chained()
      reads this`fat, this`top, this`data, this`cacheSec, this`dirty, this`loaded, this`L, disk, fatCache, clusBuf
    {
      AllSlots(data, L, Per())
    }

    lemma HealthyIsSound()
      requires Chained()
      ensures Fine(State(), g.Limit(), Per()) && PerOk(Per()) && PerBytes(Per()) == g.ClusterBytes()
          && |data| <= |fat| == g.Entries()
      ensures Healthy() <==> Sound(State(), g.Limit(), g.rootClus, Per())
    {
      hide ChainsOk, TreeOk, DirItems, TableOk, InRange, NoBad;
    }

    /** Fill cluster `c` as a directory with its two dot entries (fat.c:976-988). */
    method WriteDots(c: nat, up: nat)
      requires Valid() && 2 <= c < g.Limit() && up < 0x1_0000_0000
      modifies this`data, this`loaded, disk, clusBuf
      ensures Valid() && |data| == |old(data)| && forall k :: 0 <= k < |data| && k != c ==> data[k] == old(data)[k]
      ensures c < |data| && DotSlots(SlotsOf(data[c]), c, up)
      ensures old(Mirrored()) ==> Mirrored()
    {
      hide DotSlots, SlotsOf, TableOk, OnDisk, Mirrored;
      FillDots(c, up);
      var ok := WriteClus(c);
    }

    method FillDots(c: nat, up: nat)
      requires clusBuf.Length >= 64 && c < 0x1_0000_0000 && up < 0x1_0000_0000
      modifies clusBuf
      ensures DotSlots(SlotsOf(clusBuf[..]), c, up)
    {
      hide NewEntry, SlotsOf, DotSlots;
      forall i | 0 <= i < clusBuf.Length { clusBuf[i] := 0; }
      ghost var blank := clusBuf[..];
      var dot := BuildEntry([DOT], ATTR_DIR, c, 0);
      OverwriteSlot(0, dot);
      SlotsOfPut(blank, clusBuf[..], 0, dot);
      ghost var half := clusBuf[..];
      var dots := BuildEntry([DOT, DOT], ATTR_DIR, up, 0);
      OverwriteSlot(1, dots);
      SlotsOfPut(half, clusBuf[..], 1, dots);
      BlankDots(blank, c, up, dot, dots);
    }

    static lemma BlankDots(blank: seq<byte>, c: nat, up: nat, dot: Entry, dots: Entry)
      requires |blank| >= 64 && (forall i :: 0 <= i < |blank| ==> blank[i] == 0) && c < 0x1_0000_0000
          && up < 0x1_0000_0000
      requires dot == NewEntry([DOT], ATTR_DIR, c, 0) && dots == NewEntry([DOT, DOT], ATTR_DIR, up, 0)
      ensures DotSlots(SlotsOf(blank)[0 := dot][1 := dots], c, up)
    {
    }

    /** Create a directory for `leaf` in `dir` (fat.c:972-989). */
    method MakeDir(dir: nat, leaf: Name) returns (ok: bool, ghost c: nat, ghost slot: nat, ghost nw: nat)
      requires Healthy() && dir in L.depth && leaf != [] && (DotName(leaf) ==> dir == g.rootClus)
      modifies this`dirty, this`cacheSec, this`fat, this`data, this`loaded, this`search, this`L, disk, fatCache, clusBuf
      ensures Chained() && c < 0x1_0000_0000 && (ok ==> c != 0)
      ensures ok && DotName(leaf) ==> !Mendable(State(), g.Limit(), g.rootClus, Per())
      ensures ok && !DotName(leaf) ==> Healthy() && FirstIn(old(State()), Per(), dir, More(nw, Per()), slot)
      ensures ok && !DotName(leaf) ==>
          Up(dir, g.rootClus) < 0x1_0000_0000 && MadeDir(old(State()), State(), Per(), dir, More(nw, Per()), slot,
                                                              NewEntry(leaf, ATTR_DIR, c, 0), c, Up(dir, g.rootClus))
      ensures !ok ==> L.depth == old(L).depth && Tree() == old(Tree()) && Kept(old(State()), State(), 0)
      ensures !ok ==> (Mendable(State(), g.Limit(), g.rootClus, Per()) <==> |FreeSet(old(fat), g.Limit())| == 0)
      ensures ok <==> Room(old(Tree())[dir], |FreeSet(old(fat), g.Limit())|, 1)
      ensures (old(Mirrored()) ==> Mirrored()) && (dirty ==> old(dirty))
    {
      hide Valid, Chained, Healthy, Mirrored, DataShape, InRange, NoBad, ChainsOk, DirItems, SameChain, FreeSet, Joined,
           TreeOk, FirstSlot, DirSlots, Edited, FilesKept, MaybeGrew, NewEntry, Fits, AllSlots, AllKept, PutAt, More,
           FirstIn, MadeDir, HasSlot, NamedDir, Fine, Sound, DotSlots, Mendable, DotName;
      ghost var v := State();
      HealthyIsSound();
      DirHasChain(dir);
      ChainStep0(dir);
      slot, nw := 0, 0;
      var at;
      at := NewDir(dir);
      c := at;
      ghost var x := State();
      HealthyIsSound();
      FilesAlone(v, x, g.Limit(), Per());
      if at == 0 {
        SoundMends(v, g.Limit(), g.rootClus, Per());
        return false, c, slot, nw;
      }
      SameHit2(v, x, Per(), dir);
      ghost var data1;
      ok, slot, nw, data1 := DirAdd(dir, leaf, ATTR_DIR, at, 0);
      if !ok {
        LeakSpoils(v, x, g.Limit(), g.rootClus, Per(), [at], NOWHERE);
        return;
      }
      HealthyIsSound();
      ghost var y := State();
      FineWith(y, data1, g.Limit(), Per());
      if DotName(leaf) {
        DotAdded(y, data1, g.Limit(), g.rootClus, Per(), slot, leaf, ATTR_DIR, c, 0);
      } else {
        CreatedDir(v, x, Vol(fat, data1, L), y, g.Limit(), g.rootClus, Per(), dir, nw, slot, c, leaf);
        L := NamedDir(L, c, Ref(dir, slot));
        Heal();
      }
    }

    /** Allocate a cluster and make it an empty directory, kept aside; 0 when none is free (fat.c:972-988). */
    method NewDir(dir: nat) returns (c: nat)
      requires Chained() && dir in L.chains
      modifies this`dirty, this`cacheSec, this`fat, this`data, this`loaded, this`search, this`L, disk, fatCache, clusBuf
      ensures Chained() && |fat| == |old(fat)| && |data| == |old(data)| && L.depth == old(L).depth
      ensures AllKept(old(State()), State(), 0) && DirItems(data, L, Per()) == DirItems(old(data), old(L), Per())
      ensures c == 0 ==> State() == old(State()) && |FreeSet(old(fat), g.Limit())| == 0
      ensures c != 0 ==> 3 <= c < g.Limit() && c < |data| && c !in old(L).chains && L == Joined(old(L), [c], NOWHERE)
                         && DotSlots(SlotsOf(data[c]), c, Up(dir, g.rootClus))
                         && |FreeSet(fat, g.Limit())| == |FreeSet(old(fat), g.Limit())| - 1
      ensures (old(Mirrored()) ==> Mirrored()) && (dirty ==> old(dirty))
    {
      hide Valid, Chained, Mirrored, DataShape, InRange, NoBad, ChainsOk, DirItems, SameChain, FreeSet, Joined, Fits,
           DotSlots, Sized, SlotsOf, Reaches, HeadOk, AllKept;
      ghost var v := State();
      HealthyIsSound();
      ChainedFacts();
      ChainStep0(dir);
      c := AllocFree();
      if c == 0 {
        NothingTaken();
        StillChained();
        return;
      }
      WriteDots(c, if dir == g.rootClus then 0 else dir);
      TookOne(v, Vol(fat, data, Joined(L, [c], NOWHERE)), g.Limit(), Per(), c);
      L := Joined(L, [c], NOWHERE);
      Rechain();
    }

    /** Whether a directory holds no live entry but its dot entries (fat.c:992-1014). */
    method DirIsEmpty(dir: nat) returns (empty: bool)
      requires Chained() && dir in L.chains
      modifies this`dirty, this`cacheSec, this`loaded, disk, fatCache, clusBuf
      ensures Chained() && Sized(data, L.chains[dir], Per()) && empty == EmptyDir(SlotsAt(data, L, Per(), dir))
      ensures (old(Mirrored()) ==> Mirrored()) && (dirty ==> old(dirty))
    {
      hide Valid, Chained, Mirrored, DataShape, Fits, InRange, NoBad, Sized, DirSlots, SlotsAt, Dotted;
      ChainNonEmpty(dir);
      ghost var s := SlotsAt(data, L, Per(), dir);
      var i := 0;
      while i < MAX_SLOTS
        invariant Chained() && (old(Mirrored()) ==> Mirrored()) && (dirty ==> old(dirty))
        invariant 0 <= i <= |s| && i <= MAX_SLOTS && forall j :: 0 <= j < i ==>
            !Ended(s[j]) && (Dirs.Live(s[j]) ==> DotName(Dotted(s[j])))
      {
        var r, ent := DirGet(dir, i);
        if r <= 0 {
          return true;
        }
        if ent[0] == 0 {
          return true;
        }
        if !(ent[0] == GONE || ent[11] == ATTR_LFN || ent[11] / 8 % 2 == 1) {
          var nm := Decode83(ent);
          if nm != [DOT] && nm != [DOT, DOT] {
            return false;
          }
        }
        i := i + 1;
      }
      empty := true;
    }

    /** Remove the entry at `slot` of `dir`, unless it names a directory that is not empty (fat.c:1029-1047). */
    method RemoveEntry(dir: nat, ghost name: Name, slot: nat, isDir: bool, cluster: nat) returns (ok: bool)
      requires Healthy() && FoundIn(State(), Per(), dir, name, slot, cluster)
          && isDir == IsDir(SlotsAt(data, L, Per(), dir)[slot])
      modifies this`dirty, this`cacheSec, this`fat, this`data, this`loaded, this`L, disk, fatCache, clusBuf
      ensures Chained()
      ensures isDir ==> Into(g.rootClus, cluster) in old(L).depth
      ensures ok <==> (isDir ==> EmptyDir(old(SlotsAt(data, L, Per(), Into(g.rootClus, cluster)))))
      ensures !ok ==> Healthy() && State() == old(State())
      ensures ok ==> if DotName(name) && dir != g.rootClus then !Mendable(State(), g.Limit(), g.rootClus, Per())
                     else Healthy() && HitsEntry(old(State()), Per(), dir, name, slot, cluster)
                          && Unlinked(old(State()), State(), Per(), dir, slot, cluster)
      ensures (old(Mirrored()) ==> Mirrored()) && (dirty ==> old(dirty))
    {
      hide Valid, Chained, Healthy, Mirrored, DataShape, InRange, NoBad, ChainsOk, DirItems, TreeOk, DirSlots, Fits,
           EmptyDir, Unlinked, FindFrom, EntClus, HitsEntry, NamesItself, Mendable;
      ghost var v := State();
      HealthyIsSound();
      FoundTarget(v, g.Limit(), g.rootClus, Per(), dir, name, slot, cluster);
      if isDir {
        DirHasChain(Into(g.rootClus, cluster));
        var empty := DirIsEmpty(if cluster != 0 then cluster else g.rootClus);
        HealthyIsSound();
        if !empty {
          return false;
        }
      }
      DirHasChain(dir);
      var r, ent := DirGet(dir, slot);
      if r <= 0 {
        return false;
      }
      Unlink(dir, name, slot, ent, cluster, v);
      ok := true;
    }

    /** The last steps of a removal: the entry is put back as deleted and its chain is freed (fat.c:1036-1046). */
    method Unlink(dir: nat, ghost name: Name, slot: nat, ent: Entry, cluster: nat, ghost v: Vol)
      requires Chained() && v == State() && Sound(v, g.Limit(), g.rootClus, Per())
          && FoundIn(v, Per(), dir, name, slot, cluster)
      requires HitsEntry(v, Per(), dir, name, slot, cluster)
          || NamesItself(v, g.rootClus, Per(), dir, name, slot, cluster)
      requires ent == SlotsAt(v.data, v.L, Per(), dir)[slot]
      modifies this`dirty, this`cacheSec, this`fat, this`data, this`loaded, this`L, disk, fatCache, clusBuf
      ensures Chained()
      ensures if HitsEntry(v, Per(), dir, name, slot, cluster) then Healthy()
          && Unlinked(v, State(), Per(), dir, slot, cluster)
              else !Mendable(State(), g.Limit(), g.rootClus, Per())
      ensures (old(Mirrored()) ==> Mirrored()) && (dirty ==> old(dirty))
    {
      hide Valid, Chained, Healthy, Mirrored, DataShape, InRange, NoBad, ChainsOk, DirItems, TreeOk, DirSlots, Fits,
           EmptyDir, Unlinked, FindFrom, EntClus, PutAt, AllKept, Fine, HitsEntry, Mendable, Dotted;
      DirHasChain(dir);
      RemovedChain(v, g.Limit(), g.rootClus, Per(), dir, name, slot, cluster);
      var ok := DirPut(dir, slot, ent[0 := GONE]);
      ghost var y := State();
      ChainedFacts();
      L := Shallow(L, cluster);
      ShallowChained(y.L, cluster);
      ghost var y1 := State();
      if cluster >= 2 {
        ReleaseChain(cluster);
      } else {
        NothingTaken();
      }
      HealthyIsSound();
      if HitsEntry(v, Per(), dir, name, slot, cluster) {
        HitChain(v, g.Limit(), g.rootClus, Per(), dir, name, slot, cluster);
        UnlinkTree(v, y, State(), g.Limit(), g.rootClus, Per(), dir, name, slot, cluster);
        UnlinkKept(v, y, y1, State(), g.Limit(), Per(), dir, slot, cluster);
        Heal();
      } else {
        Damaged(v, y, y1, dir, name, slot);
      }
    }

    /** A directory whose own "." was removed: its parent still names its freed cluster. */
    lemma Damaged(v: Vol, y: Vol, y1: Vol, dir: nat, name: Name, slot: nat)
      requires Sound(v, g.Limit(), g.rootClus, Per()) && NamesItself(v, g.rootClus, Per(), dir, name, slot, dir)
          && dir in v.L.chains
      requires Erases(v, y, Per(), dir, slot) && y1 == y.(L := Shallow(v.L, dir)) && L == Dropped(y1.L, dir)
      requires Chained() && |fat| == |v.fat| && AllKept(y1, State(), dir)
      ensures !Mendable(State(), g.Limit(), g.rootClus, Per())
    {
      hide Valid, ChainsOk, TreeOk, DirItems, DirSlots, Erases, EmptyDir, Mendable, FindFrom, InRange, NoBad, Dropped,
           AllKept;
      ClearedByRelease(v, y, y1, State(), g.Limit(), Per(), dir, slot);
      ClearedIsLost(v, State(), g.Limit(), g.rootClus, Per(), dir);
    }

    /** Forgetting that `h` is a directory keeps the chains. */
    lemma ShallowChained(L0: Layout, h: nat)
      requires Valid() && ChainsOk(fat, g.Limit(), L0) && Fits(data, L0, Per()) && L == Shallow(L0, h)
      ensures Chained() && h !in L.depth && L.chains == L0.chains
    {
      hide Valid, ChainsOk, InRange, NoBad, Sized, TableOk, OnDisk;
      ChainsIgnoreNames(fat, g.Limit(), L0, L);
      Rechain();
    }

    lemma NothingTaken()
      requires Fits(data, L, Per()) && |data| <= |fat|
      ensures AllKept(State(), State(), 0)
    {
      hide SameChain;
      SameChains(fat, data, L, Per());
    }

    /** A volume that hangs together, behind sound caches. */
    lemma Heal()
      requires Valid() && Sound(State(), g.Limit(), g.rootClus, Per())
      ensures Healthy()
    {
      hide Valid, Chained, ChainsOk, TreeOk, DirItems, Fits, InRange, NoBad;
      Rechain();
    }

    lemma DirHasChain(dir: nat)
      requires Chained() && dir in L.depth
      ensures dir in L.chains && Sized(data, L.chains[dir], Per())
    {
    }

    /** Overwrite the file at `slot` of `dir` (fat.c:901-945, when the name exists). */
    method OverwriteFile(dir: nat, ghost name: Name, slot: nat, cluster: nat, src: seq<byte>)
      returns (ok: bool, ghost first: nat)
      requires Healthy() && HitsFile(State(), Per(), dir, name, slot) && |src| < 0x1_0000_0000
      requires cluster == EntClus(HitAt(State(), Per(), dir, slot))
      modifies this`dirty, this`cacheSec, this`fat, this`data, this`loaded, this`search, this`L, disk, fatCache, clusBuf
      ensures Chained() && L.depth == old(L).depth && first < 0x1_0000_0000
      ensures ok ==> Healthy()
      ensures ok ==>
          Stored(old(State()), State(), Per(), dir, [], slot,
              Pointing(old(HitAt(State(), Per(), dir, slot)), first, |src|), src, cluster)
      ensures !ok ==> Tree() == old(Tree()) && Kept(old(State()), State(), cluster)
      ensures g.Limit() <= |old(fat)|
      ensures !ok ==>
          (Mendable(State(), g.Limit(), g.rootClus, Per()) <==>
           OverSpared(old(State()), old(search), g.Limit(), cluster))
      ensures ok <==> |Reusable(old(fat), g.Limit(), old(L), cluster)| >= NumClus(|src|, g.ClusterBytes())
      ensures (old(Mirrored()) ==> Mirrored()) && (ok ==> !dirty)
    {
      hide Valid, Chained, Healthy, Mirrored, DataShape, InRange, NoBad, ChainsOk, DirItems, SameChain, Stores, NumClus,
           FreeSet, Joined, TreeOk, FindFrom, DirSlots, Dotted, Owned, Edited, FilesKept, Dropped, HoldsFile, EntClus,
           Pointing, Fits, AllSlots, Distinct, AllKept, Stored, Reusable, StartsAt, OverSpared;
      ghost var v := State();
      HealthyIsSound();
      HitOwned(data, L, g.rootClus, Per(), dir, name, slot);
      ReleaseChain(cluster);
      ghost var w := State();
      DroppedNone(v.L, cluster);
      ghost var ch;
      var at;
      ok, at, ch := StoreFile(src, Ref(dir, slot));
      first := 0;
      HealthyIsSound();
      DirsAlone(v, w, State(), Per(), cluster);
      if !ok {
        KeptTwiceAll(v, w, State(), cluster);
        SparedOver(v, w.fat, State(), old(search), dir, slot, cluster, ch);
        return;
      }
      first := at;
      Repoint(dir, name, slot, at, |src|, v, w, ch, src);
    }

    /** Clusters stored and kept aside do harm as they are, unless there are none. */
    lemma SparedNew(v: Vol, x: Vol, ch: seq<nat>)
      requires Sound(v, g.Limit(), g.rootClus, Per()) && PerOk(Per()) && Fine(x, g.Limit(), Per()) && |x.fat| == |v.fat|
      requires AllKept(v, x, 0) && Distinct(ch) && (ch != [] ==> ch[0] !in v.L.chains)
          && x.L == Joined(v.L, ch, NOWHERE)
      requires ch == [] ==> x == v
      ensures Mendable(x, g.Limit(), g.rootClus, Per()) <==> ch == []
    {
      hide ChainsOk, TreeOk, DirItems, Sized, DataShape, Joined, AllKept, Mendable, Fits;
      if ch == [] {
        SoundMends(v, g.Limit(), g.rootClus, Per());
      } else {
        LeakSpoils(v, x, g.Limit(), g.rootClus, Per(), ch, NOWHERE);
      }
    }

    /** Whether an overwrite that failed has done harm. */
    lemma SparedOver(v: Vol, free: seq<nat>, z: Vol, hint: nat, dir: nat, slot: nat, h: nat, ch: seq<nat>)
      requires Sound(v, g.Limit(), g.rootClus, Per()) && PerOk(Per()) && Fine(z, g.Limit(), Per()) && |z.fat| == |v.fat|
      requires AllKept(v, z, h) && Distinct(ch) && (ch != [] ==> ch[0] !in Dropped(v.L, h).chains)
      requires z.L == Joined(Dropped(v.L, h), ch, Ref(dir, slot)) && z.L.depth == v.L.depth
          && (ch == [] && h == 0 ==> z == v)
      requires Owned(DirItems(v.data, v.L, Per()), g.rootClus, dir, slot)
          && DirItems(v.data, v.L, Per())[dir][slot].clus == h && DirItems(v.data, v.L, Per())[dir][slot].File?
      requires DirItems(z.data, z.L, Per()) == DirItems(v.data, v.L, Per())
      requires |free| == |v.fat| && FreeSet(free, g.Limit()) == Reusable(v.fat, g.Limit(), v.L, h)
          && |ch| == |FreeSet(free, g.Limit())| && StartsAt(free, hint, g.Limit(), ch)
      ensures Mendable(z, g.Limit(), g.rootClus, Per()) <==> OverSpared(v, hint, g.Limit(), h)
    {
      hide ChainsOk, TreeOk, DirItems, DirSlots, Sized, DataShape, Joined, Dropped, FreeSet, AllKept, Mendable,
           SameChain, OverSpared, Reusable, StartsAt, Fits;
      HeadsPositive(v.fat, g.Limit(), v.L);
      OwnerOf(DirItems(v.data, v.L, Per()), v.L, g.rootClus, dir, slot, h);
      if h == 0 {
        NotDropped(v.L);
        SparedNone(v, hint);
        if ch == [] {
          SoundMends(v, g.Limit(), g.rootClus, Per());
        } else {
          LeakSpoils(v, z, g.Limit(), g.rootClus, Per(), ch, Ref(dir, slot));
        }
      } else {
        OverExact(v, z, g.Limit(), g.rootClus, Per(), dir, slot, h, ch);
        OverSparedIs(v, free, hint, g.Limit(), h, ch);
      }
    }

    lemma SparedNone(v: Vol, hint: nat)
      requires g.Limit() <= |v.fat| && 0 !in v.L.chains
      ensures Reusable(v.fat, g.Limit(), v.L, 0) == FreeSet(v.fat, g.Limit())
      ensures OverSpared(v, hint, g.Limit(), 0) <==> |FreeSet(v.fat, g.Limit())| == 0
    {
    }

    static lemma NotDropped(T: Layout)
      requires 0 !in T.chains
      ensures Dropped(T, 0) == T
    {
    }

    static lemma OwnerOf(D: DirMap, T: Layout, root: nat, dir: nat, slot: nat, h: nat)
      requires TreeOk(D, T, root) && Owned(D, root, dir, slot) && D[dir][slot].clus == h && D[dir][slot].File?
      ensures 0 !in T.chains && (h != 0 ==> h in T.chains && h !in T.depth && h != root && T.refs[h] == Ref(dir, slot))
    {
      assert EntryOk(D, T, dir, slot);
    }

    /** Create a file for `leaf` in `dir` (fat.c:904-936, 946, when the name is new). */
    method CreateFile(dir: nat, leaf: Name, src: seq<byte>)
      returns (ok: bool, ghost first: nat, ghost slot: nat, ghost nw: nat)
      requires Healthy() && dir in L.depth && leaf != [] && (DotName(leaf) ==> dir == g.rootClus)
          && |src| < 0x1_0000_0000
      modifies this`dirty, this`cacheSec, this`fat, this`data, this`loaded, this`search, this`L, disk, fatCache, clusBuf
      ensures Chained() && L.depth == old(L).depth && first < 0x1_0000_0000
      ensures ok && !DotName(leaf) ==> Healthy() && FirstIn(old(State()), Per(), dir, More(nw, Per()), slot)
      ensures ok && !DotName(leaf) ==>
                Stored(old(State()), State(), Per(), dir, More(nw, Per()), slot, NewEntry(leaf, ATTR_ARC, first, |src|),
                    src, 0)
      ensures ok && DotName(leaf) ==> !Mendable(State(), g.Limit(), g.rootClus, Per())
      ensures !ok ==> Tree() == old(Tree()) && Kept(old(State()), State(), 0)
      ensures !ok ==>
          (Mendable(State(), g.Limit(), g.rootClus, Per()) <==>
           NumClus(|src|, g.ClusterBytes()) == 0 || |FreeSet(old(fat), g.Limit())| == 0)
      ensures ok <==> Room(old(Tree())[dir], |FreeSet(old(fat), g.Limit())|, NumClus(|src|, g.ClusterBytes()))
      ensures (old(Mirrored()) ==> Mirrored()) && (ok ==> !dirty)
    {
      hide Valid, Chained, Healthy, Mirrored, DataShape, InRange, NoBad, ChainsOk, DirItems, SameChain, Stores, NumClus,
           FreeSet, Joined, TreeOk, FirstSlot, DirSlots, Edited, FilesKept, MaybeGrew, NewEntry, Fits, AllSlots,
           Distinct, AllKept, PutAt, More, FirstIn, Stored, HasSlot, Named, Fine, Sound, Mendable, DotName;
      ghost var v := State();
      HealthyIsSound();
      ghost var ch;
      var at;
      ok, at, ch := StoreFile(src, NOWHERE);
      first, slot, nw := 0, 0, 0;
      ghost var x := State();
      HealthyIsSound();
      FilesAlone(v, x, g.Limit(), Per());
      SparedNew(v, x, ch);
      if !ok {
        return;
      }
      first := at;
      SameHit2(v, x, Per(), dir);
      ghost var data1;
      ok, slot, nw, data1 := DirAdd(dir, leaf, ATTR_ARC, at, |src|);
      if !ok {
        return;
      }
      HealthyIsSound();
      ghost var y := State();
      FineWith(y, data1, g.Limit(), Per());
      if DotName(leaf) {
        DotAdded(y, data1, g.Limit(), g.rootClus, Per(), slot, leaf, ATTR_ARC, at, |src|);
      } else {
        CreatedFile(v, x, Vol(fat, data1, L), y, g.Limit(), g.rootClus, Per(), dir, nw, slot, ch, leaf, src);
        L := Named(L, HeadOf(ch), Ref(dir, slot));
        Heal();
      }
    }

    /** The last steps of an overwrite: the entry is read, changed and put back (fat.c:937-945). */
    method Repoint(dir: nat, ghost name: Name, slot: nat, first: nat, size: nat, ghost v: Vol, ghost w: Vol,
                   ghost ch: seq<nat>, ghost src: seq<byte>)
      requires Chained() && Fine(State(), g.Limit(), Per()) && PerOk(Per())
      requires Sound(v, g.Limit(), g.rootClus, Per()) && HitsFile(v, Per(), dir, name, slot)
      requires Replaced(v, w, State(), Per(), dir, slot, ch, src) && first == HeadOf(ch) && size == |src|
      requires 0 !in w.L.chains && 0 !in v.L.chains && EntClus(HitAt(v, Per(), dir, slot)) !in v.L.depth
      modifies this`dirty, this`cacheSec, this`loaded, this`data, disk, fatCache, clusBuf
      ensures Healthy() && L == old(L)
      ensures Stored(v, State(), Per(), dir, [], slot, Pointing(HitAt(v, Per(), dir, slot), first, size), src,
            EntClus(HitAt(v, Per(), dir, slot)))
      ensures (old(Mirrored()) ==> Mirrored()) && (dirty ==> old(dirty))
    {
      hide Valid, Chained, Healthy, Mirrored, DataShape, InRange, NoBad, ChainsOk, DirItems, SameChain, Stores, Joined,
           TreeOk, FindFrom, DirSlots, Dotted, PutAt, Edited, FilesKept, Dropped, HoldsFile, EntClus, EntSize, Pointing,
           Fits, AllSlots, Distinct, AllKept;
      ghost var x := State();
      DirsAlone(v, w, x, Per(), EntClus(HitAt(v, Per(), dir, slot)));
      SameHit(v, x, Per(), dir, slot);
      DirHasChain(dir);
      var r, ent := DirGet(dir, slot);
      if r <= 0 {
        return;
      }
      ent := PointEntry(ent, first, size);
      var ok := DirPut(dir, slot, ent);
      HealthyIsSound();
      OverwriteTree(v, w, x, State(), g.Limit(), g.rootClus, Per(), dir, name, slot, ch, src);
      OverwriteEdits(v, w, x, State(), g.Limit(), Per(), dir, slot, ch, src);
      DroppedDepth(v.data, v.L, Per(), EntClus(HitAt(v, Per(), dir, slot)));
      JoinedHolds(x, w.L, Per(), ch, Ref(dir, slot), src);
      HoldsKept(x.fat, x.data, x.L, fat, data, L, g.ClusterBytes(), first, src, 0);
    }

    /** ent_set_clus and the size field (fat.c:499-503, 942-943). */
    static method PointEntry(ent: Entry, clus: nat, size: nat) returns (ent': Entry)
      requires clus < 0x1_0000_0000 && size < 0x1_0000_0000
      ensures ent' == Pointing(ent, clus, size)
    {
      ent' := W16(ent, 20, clus / 0x10000);
      ent' := W16(ent', 26, clus % 0x10000);
      ent' := W32(ent', 28, size);
    }

    // -------------------------------------------------------------- paths

    /** Skip slashes (fat.c:612-614, 629-631). */
    static method SkipSlashes(path: Name, from: nat) returns (p: nat)
      requires from <= |path|
      ensures from <= p <= |path| && (p < |path| ==> path[p] != SLASH) && Parts(path[p..]) == Parts(path[from..])
    {
      p := from;
      while p < |path| && path[p] == SLASH
        invariant from <= p <= |path| && Parts(path[p..]) == Parts(path[from..])
      {
        assert path[p..][1..] == path[p+1..];
        p := p + 1;
      }
    }

    /** Copy one component, cut to 79 characters (fat.c:621-628). */
    static method NextPart(path: Name, from: nat) returns (part: Name, p: nat)
      requires from < |path| && path[from] != SLASH
      ensures from < p <= |path| && part == Take(path[from..p], PART_MAX)
          && Parts(path[from..]) == [part] + Parts(path[p..])
    {
      part, p := [], from;
      while p < |path| && path[p] != SLASH
        invariant from <= p <= |path| && part == Take(path[from..p], PART_MAX) && SLASH !in path[from..p]
      {
        assert path[from..p+1] == path[from..p] + [path[p]];
        if |part| + 1 < NAME_MAX { part := part + [path[p]]; }
        p := p + 1;
      }
      CompIs(path[from..], p - from);
      assert path[from..][..p-from] == path[from..p] && path[from..][p-from..] == path[p..];
    }

    static lemma {:induction false} CompIs(s: Name, n: nat)
      requires n <= |s| && SLASH !in s[..n] && (n < |s| ==> s[n] == SLASH)
      ensures CompLen(s) == n
      decreases n
    {
      if n > 0 {
        assert s[0] == s[..n][0];
        assert s[1..][..n-1] == s[..n][1..];
        CompIs(s[1..], n - 1);
      }
    }

    /** Split a path into the directory that holds its last component, and that component (fat.c:602-645). */
    method WalkParent(path: Name) returns (ok: bool, parent: nat, leaf: Name)
      requires Healthy()
      modifies this`dirty, this`cacheSec, this`loaded, disk, fatCache, clusBuf
      ensures Healthy() && State() == old(State()) && Tree() == old(Tree())
      ensures var S, parts := Tree(), Parts(path);
              && (ok <==> Absolute(path) && (parts != [] ==> Parent(S, g.rootClus, parts).Some?))
              && (ok ==> if parts == [] then parent == g.rootClus && leaf == []
                         else
                           && Parent(S, g.rootClus, parts) == Some(parent) && leaf == Last(parts)
                           && parent in L.depth && leaf != [])
      ensures (old(Mirrored()) ==> Mirrored()) && (dirty ==> old(dirty))
    {
      hide Valid, Chained, Healthy, Mirrored, DataShape, Fits, InRange, NoBad, ChainsOk, TreeOk, DirItems, Sized,
           DirSlots, FindFrom, AllSlots, EntClus, LongName, Dotted, Step, Walk, Fine, Walking, Parent, Tree, Parts,
           Last;
      parent, leaf := g.rootClus, [];
      if path == [] || path[0] != SLASH {
        return false, parent, leaf;
      }
      HealthyIsSound();
      RootDepth();
      ghost var S, parts := Tree(), Parts(path);
      var p := SkipSlashes(path, 0);
      assert path[0..] == path;
      if p == |path| {
        NoPart(path[p..]);
        return true, parent, leaf;
      }
      MorePart(path[p..]);
      WalkStarts(S, g.rootClus, parts);
      ghost var rest := parts;
      while true
        invariant Healthy() && State() == old(State()) && Tree() == S && (old(Mirrored()) ==> Mirrored())
            && (dirty ==> old(dirty)) && parent in L.depth
        invariant p < |path| && path[p] != SLASH && rest == Parts(path[p..])
            && Walking(S, g.rootClus, parts, parent, rest)
        decreases |path| - p
      {
        leaf, p := PartAt(path, p);
        if p == |path| {
          WalkEnds(S, g.rootClus, parts, parent, rest);
          return true, parent, leaf;
        }
        WalkGoesOn(S, g.rootClus, parts, parent, rest);
        rest := rest[1..];
        var found;
        found, parent := Descend(parent, leaf);
        if !found {
          return false, parent, leaf;
        }
      }
    }

    /** Take one component and the slashes behind it. */
    static method PartAt(path: Name, from: nat) returns (part: Name, p: nat)
      requires from < |path| && path[from] != SLASH
      ensures from < p <= |path| && (p < |path| ==> path[p] != SLASH)
      ensures var rest := Parts(path[from..]); |rest| >= 1 && part == rest[0] && rest[1..] == Parts(path[p..])
      ensures p == |path| <==> |Parts(path[from..])| == 1
    {
      part, p := NextPart(path, from);
      ghost var rest := Parts(path[p..]);
      assert ([part] + rest)[1..] == rest;
      p := SkipSlashes(path, p);
      if p < |path| { MorePart(path[p..]); }
    }

    static lemma NoPart(s: Name)
      requires s == []
      ensures Parts(s) == []
    {
    }

    static lemma MorePart(s: Name)
      requires s != [] && s[0] != SLASH
      ensures Parts(s) != []
    {
    }

    lemma RootDepth()
      requires Healthy()
      ensures g.rootClus in L.depth && Tree() == TreeOf(State(), Per())
    {
      hide Chained, DirItems, AllSlots;
    }

    /** One step down: find a component, which must be a directory (fat.c:637-642). */
    method Descend(dir: nat, part: Name) returns (found: bool, next: nat)
      requires Healthy() && dir in L.depth
      modifies this`dirty, this`cacheSec, this`loaded, disk, fatCache, clusBuf
      ensures Healthy() && State() == old(State()) && Tree() == old(Tree())
      ensures Step(Tree(), g.rootClus, dir, part) == if found then Some(next) else None
      ensures found ==> next in L.depth
      ensures (old(Mirrored()) ==> Mirrored()) && (dirty ==> old(dirty))
    {
      hide Valid, Chained, Healthy, Mirrored, DataShape, Fits, InRange, NoBad, ChainsOk, TreeOk, DirItems, Sized,
           DirSlots, FindFrom, EntClus, EntSize, LongName, Dotted, PendAt, Fine;
      var info, slot;
      found, info, slot := Lookup(dir, part);
      next := dir;
      if !found || !info.dir {
        return false, next;
      }
      HealthyIsSound();
      HitFolder(State(), g.Limit(), g.rootClus, Per(), dir, part, slot);
      next := if info.cluster != 0 then info.cluster else g.rootClus;
    }

    /** dir_find on a well-formed volume. */
    method Lookup(dir: nat, name: Name) returns (found: bool, info: Info, slot: nat)
      requires Healthy() && dir in L.depth
      modifies this`dirty, this`cacheSec, this`loaded, disk, fatCache, clusBuf
      ensures Healthy() && State() == old(State()) && Tree() == old(Tree()) && dir in Tree() && dir in L.chains
          && Sized(data, L.chains[dir], Per())
      ensures Tree()[dir] == SlotsAt(data, L, Per(), dir)
      ensures var s := Tree()[dir];
              && (found <==> Find(s, name).Some?)
              && (found ==> slot == Find(s, name).value && info == InfoAt(s, slot))
      ensures (old(Mirrored()) ==> Mirrored()) && (dirty ==> old(dirty))
    {
      hide Valid, Chained, Healthy, Mirrored, DataShape, Fits, InRange, NoBad, ChainsOk, TreeOk, DirItems, Sized,
           DirSlots, FindFrom, EntClus, EntSize, LongName, Dotted, PendAt, Fine, Sound;
      HealthyIsSound();
      DirHasChain(dir);
      found, info, slot := DirFind(dir, name);
      HealthyIsSound();
    }

    /** A dot name is missed in the root only; a file found is never spelt like one. */
    lemma LookedUp(dir: nat, name: Name)
      requires Healthy() && dir in L.depth && dir in Tree()
      ensures match Find(Tree()[dir], name)
              case Some(i) => !IsDir(Tree()[dir][i]) ==> !DotName(Dotted(Tree()[dir][i]))
              case None => DotName(name) ==> dir == g.rootClus
    {
      hide Valid, Chained, Healthy, ChainsOk, TreeOk, DirItems, Sized, DirSlots, FindFrom, DataShape, InRange, NoBad,
           Dotted, IsDir, EntClus;
      HealthyIsSound();
      RootDepth();
      assert Tree()[dir] == SlotsAt(data, L, Per(), dir);
      if Find(Tree()[dir], name).Some? {
        PlainHit(State(), g.Limit(), g.rootClus, Per(), dir, name, Find(Tree()[dir], name).value);
      } else if DotName(name) && dir != g.rootClus {
        DotsAreFound(State(), g.Limit(), g.rootClus, Per(), dir, name);
      }
    }

    // -------------------------------------------------------------- the calls

    /** fat_stat (fat.c:647-681). */
    method FatStat(path: Name) returns (ok: bool, info: Info)
      requires Healthy()
      modifies this`dirty, this`cacheSec, this`loaded, disk, fatCache, clusBuf
      ensures Healthy() && State() == old(State()) && Tree() == old(Tree())
      ensures ok <==> Absolute(path) && Stat(Tree(), g.rootClus, Parts(path)).Some?
      ensures ok ==> Stat(Tree(), g.rootClus, Parts(path)) == Some(info)
      ensures (old(Mirrored()) ==> Mirrored()) && (dirty ==> old(dirty))
    {
      hide Valid, Chained, Healthy, Mirrored, DataShape, Fits, InRange, NoBad, ChainsOk, TreeOk, DirItems, Sized,
           DirSlots, FindFrom, EntClus, EntSize, LongName, Dotted, PendAt, Fine, Walk, Parts, Tree, InfoAt;
      var parent, leaf, slot;
      ok, parent, leaf := WalkParent(path);
      info := Info(ROOT_NAME, true, 0, parent);
      if !ok || leaf == [] {
        return;
      }
      ok, info, slot := Lookup(parent, leaf);
    }

    /** fat_read (fat.c:797-829): the file's bytes, as many as fit. */
    method FatRead(path: Name, buf: array<byte>) returns (ok: bool, n: nat)
      requires Healthy() && buf != clusBuf && buf != fatCache
      modifies this`dirty, this`cacheSec, this`loaded, disk, fatCache, clusBuf, buf
      ensures Healthy() && State() == old(State())
      ensures Fine(State(), g.Limit(), Per())
      ensures var text := FileAt(State(), g.Limit(), g.rootClus, Per(), Parts(path));
              && (ok <==> Absolute(path) && text.Some?)
              && (ok ==> n == Min(|text.value|, buf.Length) && buf[..n] == text.value[..n] && buf[n..] == old(buf[n..]))
      ensures !ok ==> buf[..] == old(buf[..])
      ensures (old(Mirrored()) ==> Mirrored()) && (dirty ==> old(dirty))
    {
      hide Valid, Chained, Healthy, Mirrored, DataShape, InRange, NoBad, ChainsOk, TreeOk, DirItems, Sized, DirSlots,
           FindFrom, Parts, Tree, Stat, ReadFrom, Contents, AllSlots, ReadAll;
      var info;
      ok, info := FatStat(path);
      HealthyIsSound();
      RootDepth();
      n := 0;
      if !ok || info.dir {
        return false, n;
      }
      StatFile(path, info);
      n := Min(info.size, buf.Length);
      ReadAsked(info.cluster, info.size, n);
      var got := ReadChain(info.cluster, n, buf);
      StillChained();
      HealthyIsSound();
    }

    /** What stat says of a file is what its chain holds. */
    lemma StatFile(path: Name, info: Info)
      requires Healthy() && Stat(Tree(), g.rootClus, Parts(path)) == Some(info) && !info.dir
      ensures Fine(State(), g.Limit(), Per())
      ensures |Contents(State(), g.Limit(), Per(), info.cluster, info.size)| == info.size
      ensures InChain(info.cluster) ==> info.cluster < g.Limit()
    {
      hide Valid, Chained, Healthy, ChainsOk, TreeOk, DirItems, Sized, DirSlots, FindFrom, Parts, Contents, AllSlots,
           Parent, EntClus, EntSize, LongName, Dotted, IsDir, DataShape, InRange, NoBad;
      HealthyIsSound();
      RootDepth();
      var S := Tree();
      var r := Locate(S, g.rootClus, Parts(path)).ref;
      assert S[r.dir] == SlotsAt(data, L, Per(), r.dir);
      FullContents(State(), g.Limit(), g.rootClus, Per(), r.dir, Last(Parts(path)), r.slot);
    }

    /** Asking for the first `n` bytes gives them. */
    lemma ReadAsked(first: nat, size: nat, n: nat)
      requires Chained() && Fine(State(), g.Limit(), Per()) && (InChain(first) ==> first < g.Limit()) && n <= size
      requires |Contents(State(), g.Limit(), Per(), first, size)| == size
      ensures ReadAll(first, n) == Contents(State(), g.Limit(), Per(), first, size)[..n] && |ReadAll(first, n)| == n
    {
      hide Valid, ChainsOk, ReadFrom, NoBad;
      ReadPrefix(fat, data, PerBytes(Per()), first, n, size);
    }

    /**
     * fat_write (fat.c:887-947). It succeeds exactly when there is room; then the volume is
     * well formed again, unless a "." or ".." was created in the root, and if the entry is safe
     * where it goes the path reads `src` and every other path is as before. A failed write changes
     * no directory and no other file.
     */
    method FatWrite(path: Name, src: seq<byte>) returns (ok: bool, ghost first: nat, ghost slot: nat, ghost more: Slots)
      requires Healthy() && |src| < 0x1_0000_0000
      modifies this`dirty, this`cacheSec, this`fat, this`data, this`loaded, this`search, this`L, disk, fatCache, clusBuf
      ensures Chained() && Fine(State(), g.Limit(), Per()) && Fine(old(State()), g.Limit(), Per())
      ensures ok <==>
          Absolute(path) && CanWrite(old(State()), g.Limit(), g.rootClus, Per(), Parts(path),
              NumClus(|src|, g.ClusterBytes()))
      ensures ok ==>
          (Mendable(State(), g.Limit(), g.rootClus, Per()) <==> !NewDot(old(Tree()), g.rootClus, Parts(path)))
      ensures first < 0x1_0000_0000
      ensures ok && !NewDot(old(Tree()), g.rootClus, Parts(path)) ==>
                Healthy() && WriteDone(old(State()), State(), g.Limit(), g.rootClus, Per(), Parts(path), src, first,
                                       slot, more)
      ensures ok && SafeTarget(old(Tree()), g.rootClus, Parts(path)) &&
              !NewDot(old(Tree()), g.rootClus, Parts(path)) ==>
                WriteSeen(old(State()), State(), g.Limit(), g.rootClus, Per(), Parts(path), src)
      ensures !ok ==>
          Tree() == old(Tree()) && Kept(old(State()), State(), TargetClus(old(Tree()), g.rootClus, Parts(path)))
      ensures !ok ==>
          (Mendable(State(), g.Limit(), g.rootClus, Per()) <==>
           !Absolute(path) || WriteSpared(old(State()), old(search), g.Limit(), g.rootClus, Per(), Parts(path),
                                          NumClus(|src|, g.ClusterBytes())))
      ensures (old(Mirrored()) ==> Mirrored()) && (ok ==> !dirty)
    {
      hide Valid, Chained, Healthy, Mirrored, DataShape, InRange, NoBad, ChainsOk, TreeOk, DirItems, Sized, DirSlots,
           FindFrom, Fits, Parts, AllSlots, NumClus, Parent, Kept, LongName, PendAt, Dotted, EntSize, WriteSeen,
           SafeTarget, CanWrite, TargetClus, Stored, NewEntry, Pointing, EntClus, FreeSet, Reusable, Room, FirstIn,
           Fine, Mendable, DotName, WriteSpared, OverSpared;
      first, slot, more := 0, 0, [];
      ghost var v, p, need := State(), Parts(path), NumClus(|src|, g.ClusterBytes());
      HealthyIsSound();
      RootDepth();
      NothingKept(TargetClus(Tree(), g.rootClus, p));
      var parent, leaf;
      ok, parent, leaf := WalkParent(path);
      HealthyIsSound();
      if !ok || leaf == [] {
        if Absolute(path) {
          WriteMisses(v, g.Limit(), g.rootClus, Per(), p, need);
          SparedMisses(v, search, g.Limit(), g.rootClus, Per(), p, need);
        }
        HealthyMends();
        return false, first, slot, more;
      }
      WriteMeets(v, g.Limit(), g.rootClus, Per(), p, need, parent);
      var there, info, at := Lookup(parent, leaf);
      HealthyIsSound();
      LookedUp(parent, leaf);
      if there && info.dir {
        SparedMeets(v, old(search), g.Limit(), g.rootClus, Per(), p, need, parent);
        HealthyMends();
        return false, first, slot, more;
      }
      if there {
        ok, first := OverwriteFile(parent, leaf, at, info.cluster, src);
        HealthyIsSound();
        SparedMeets(v, old(search), g.Limit(), g.rootClus, Per(), p, need, parent);
        if ok {
          HealthyMends();
          WroteOver(v, State(), g.Limit(), g.rootClus, Per(), p, parent, at, first, src);
          WroteOverDone(v, State(), g.Limit(), g.rootClus, Per(), p, parent, at, first, src, slot, more);
        }
      } else {
        ghost var nw;
        ok, first, slot, nw := CreateFile(parent, leaf, src);
        more := More(nw, Per());
        HealthyIsSound();
        SparedMeets(v, old(search), g.Limit(), g.rootClus, Per(), p, need, parent);
        if ok && !DotName(leaf) {
          HealthyMends();
          if SafeTarget(old(Tree()), g.rootClus, p) {
            WroteNew(v, State(), g.Limit(), g.rootClus, Per(), p, parent, more, slot, first, src);
          }
        }
      }
    }

    /** fat_mkdir (fat.c:959-990). */
    method FatMkdir(path: Name) returns (ok: bool, ghost c: nat, ghost slot: nat, ghost more: Slots)
      requires Healthy()
      modifies this`dirty, this`cacheSec, this`fat, this`data, this`loaded, this`search, this`L, disk, fatCache, clusBuf
      ensures Chained() && Fine(State(), g.Limit(), Per()) && Fine(old(State()), g.Limit(), Per())
      ensures ok <==> Absolute(path) && CanMake(old(State()), g.Limit(), g.rootClus, Per(), Parts(path))
      ensures ok ==>
          (Mendable(State(), g.Limit(), g.rootClus, Per()) <==> !NewDot(old(Tree()), g.rootClus, Parts(path)))
      ensures c < 0x1_0000_0000
      ensures ok && !NewDot(old(Tree()), g.rootClus, Parts(path)) ==>
                Healthy() && MakeDone(old(State()), State(), g.Limit(), g.rootClus, Per(), Parts(path), c, slot, more)
      ensures ok && SafeTarget(old(Tree()), g.rootClus, Parts(path)) &&
              !NewDot(old(Tree()), g.rootClus, Parts(path)) ==>
                MakeSeenAll(old(State()), State(), g.Limit(), g.rootClus, Per(), Parts(path), c)
      ensures !ok ==> Tree() == old(Tree()) && Kept(old(State()), State(), 0)
      ensures !ok ==>
          (Mendable(State(), g.Limit(), g.rootClus, Per()) <==>
           !Absolute(path) || MakeSpared(old(State()), g.Limit(), g.rootClus, Per(), Parts(path)))
      ensures (old(Mirrored()) ==> Mirrored()) && (dirty ==> old(dirty))
    {
      hide Valid, Chained, Healthy, Mirrored, DataShape, InRange, NoBad, ChainsOk, TreeOk, DirItems, Sized, DirSlots,
           FindFrom, Fits, Parts, AllSlots, Parent, Kept, InfoAt, MakeSeenAll, MakeSpared, WriteSpared, SafeTarget,
           CanMake, CanWrite, TargetClus, MadeDir, NewEntry, EntClus, FreeSet, Reusable, Room, FirstIn, Fine, Up,
           Mendable, DotName;
      ghost var v, p := State(), Parts(path);
      HealthyIsSound();
      RootDepth();
      NothingKept(0);
      c, slot, more := 0, 0, [];
      var parent, leaf;
      ok, parent, leaf := WalkParent(path);
      HealthyIsSound();
      if !ok || leaf == [] {
        if Absolute(path) {
          WriteMisses(v, g.Limit(), g.rootClus, Per(), p, 0);
          SparedMisses(v, search, g.Limit(), g.rootClus, Per(), p, 0);
        }
        HealthyMends();
        return false, c, slot, more;
      }
      WriteMeets(v, g.Limit(), g.rootClus, Per(), p, 0, parent);
      SparedMeets(v, search, g.Limit(), g.rootClus, Per(), p, 0, parent);
      var there, info, at := Lookup(parent, leaf);
      HealthyIsSound();
      LookedUp(parent, leaf);
      if there {
        HealthyMends();
        return false, c, slot, more;
      }
      ghost var nw;
      ok, c, slot, nw := MakeDir(parent, leaf);
      more := More(nw, Per());
      HealthyIsSound();
      if ok && !DotName(leaf) {
        HealthyMends();
        if SafeTarget(old(Tree()), g.rootClus, p) {
          MadeNew(v, State(), g.Limit(), g.rootClus, Per(), p, parent, more, slot, c, Up(parent, g.rootClus));
        }
      }
    }

    /** What is well formed under its own layout is so under some layout. */
    lemma HealthyMends()
      requires Healthy()
      ensures Mendable(State(), g.Limit(), g.rootClus, Per())
    {
      hide Chained, ChainsOk, TreeOk, DirItems;
      HealthyIsSound();
      assert State().(L := L) == State();
    }

    /**
     * fat_remove (fat.c:1016-1048). A refused removal changes nothing. After any other the volume is
     * well formed again, unless the path ends in a dot name below the root: "." of an empty
     * directory is erased and its cluster freed, while the directory above still names it.
     * The name is gone and every other path as before exactly if no entry further down answers to
     * one of the entry's two names; a directory that plain paths do not reach does not matter.
     */
    method FatRemove(path: Name) returns (ok: bool)
      requires Healthy()
      modifies this`dirty, this`cacheSec, this`fat, this`data, this`loaded, this`L, disk, fatCache, clusBuf
      ensures Chained() && Fine(State(), g.Limit(), Per()) && Fine(old(State()), g.Limit(), Per())
      ensures ok <==> Absolute(path) && CanDelete(old(Tree()), g.rootClus, Parts(path))
      ensures ok ==>
          (Mendable(State(), g.Limit(), g.rootClus, Per()) <==> !OwnDot(old(Tree()), g.rootClus, Parts(path)))
      ensures ok && !OwnDot(old(Tree()), g.rootClus, Parts(path)) ==>
                Healthy() && RemoveDone(old(State()), State(), g.Limit(), g.rootClus, Per(), Parts(path))
      ensures ok && !OwnDot(old(Tree()), g.rootClus, Parts(path)) ==>
                (RemoveSeenAll(old(State()), State(), g.Limit(), g.rootClus, Per(), Parts(path)) <==>
                 SoleName(old(Tree()), g.rootClus, Parts(path)) || !InReach(old(Tree()), g.rootClus, Parts(path)))
      ensures !ok ==> Healthy() && State() == old(State())
      ensures (old(Mirrored()) ==> Mirrored()) && (dirty ==> old(dirty))
    {
      hide Valid, Chained, Healthy, Mirrored, DataShape, InRange, NoBad, ChainsOk, TreeOk, DirItems, Sized, DirSlots,
           FindFrom, Fits, Parts, AllSlots, Parent, Kept, LongName, PendAt, Dotted, EntSize, RemoveSeenAll, CanDelete,
           CanWrite, CanMake, TargetClus, EntClus, FreeSet, Reusable, Room, Fine, NoTwin, EmptyDir, Unlinked, SoleName,
           HitsEntry, Mendable, DotName, InReach, RemoveDone;
      ghost var v, p := State(), Parts(path);
      HealthyIsSound();
      RootDepth();
      var parent, leaf;
      ok, parent, leaf := WalkParent(path);
      HealthyIsSound();
      if !ok || leaf == [] {
        if Absolute(path) { DeleteMisses(old(Tree()), g.rootClus, p); }
        return false;
      }
      DeleteMeets(old(Tree()), g.rootClus, p, parent);
      var found, info, slot := Lookup(parent, leaf);
      HealthyIsSound();
      if !found {
        return false;
      }
      ok := RemoveEntry(parent, leaf, slot, info.dir, info.cluster);
      HealthyIsSound();
      if ok && !OwnDot(old(Tree()), g.rootClus, p) {
        HealthyMends();
        RemovedExact(v, State(), g.Limit(), g.rootClus, Per(), p, parent, slot, info.cluster);
      }
    }

    lemma NothingKept(gone: nat)
      requires Fits(data, L, Per()) && |data| <= |fat|
      ensures Kept(State(), State(), gone)
    {
      hide SameChain;
      SameChains(fat, data, L, Per());
    }

    /** A change outside the tables keeps what they spell. */
    twostate lemma TablesKept()
      requires old(Shape()) && old(TableOk()) && Shape()
      requires fat == old(fat) && top == old(top) && cacheSec == old(cacheSec) && dirty == old(dirty)
          && unchanged(fatCache)
      requires forall j: nat :: j < partLba + g.DataBegin() ==> disk[j] == old(disk[j])
      ensures TableOk() && (old(Mirrored()) ==> Mirrored()) && (dirty ==> old(dirty))
    {
      forall s: nat | s < g.fatSz ensures Copy1(s) == old(Copy1(s)) && Copy2(s) == old(Copy2(s)) {}
      forall s: nat | s < g.fatSz ensures Spells(FatSector(s), s, fat, top) {
        assert FatSector(s) == old(FatSector(s));
      }
    }
  }
}
