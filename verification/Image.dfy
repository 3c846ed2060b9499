/**
 * The disk image the host tool builds: a FAT32 volume in a byte array, filled by mkdir and
 * add_file (tools/make_fat.py:98-420), and mounted by the driver (kernel/src/fat.c:1220-1293).
 */
module Images {
  import opened Options
  import opened Bytes
  import opened Names
  import opened Chains
  import opened Dirs
  import opened Trees
  import opened Wellformed
  import opened Ops
  import opened Paths
  import opened Mending
  import opened Geometries
  import opened LongNames
  import opened ImageNames
  import opened Runs
  import opened Blobs
  import opened Sights
  import Builds
  import opened Volumes
  import opened Formats

  const PART_START: nat := 2048
  const ROOT: nat := 2

  // ---------------------------------------------------------------- where things lie

  /** Entry `c` of table copy `n` (make_fat.py:214-220). */
  function FatOff(g: Geometry, n: nat, c: nat): nat {
    (PART_START + RESERVED + if n == 0 then 0 else g.fatSz) * SECTOR + c * 4
  }

  function DataOff(g: Geometry): nat { (PART_START + RESERVED + 2 * g.fatSz) * SECTOR }

  /** Byte offset of cluster `c` (make_fat.py:239-241). */
  function ClusOff(g: Geometry, c: nat): nat
    requires c >= 2
  {
    (PART_START + g.ClusLba(c)) * SECTOR
  }

  function Size(g: Geometry): nat { (PART_START + g.DataBegin() + g.total * g.spc) * SECTOR }

  ghost predicate Laid(g: Geometry) { g.Ok() && g.fatBegin == RESERVED && g.rootClus == ROOT }

  lemma FatInside(g: Geometry, n: nat, c: nat)
    requires Laid(g) && c < g.Entries()
    ensures FatOff(g, n, c) + 4 <= DataOff(g) <= Size(g) && (n == 0 ==> FatOff(g, 0, c) + 4 <= FatOff(g, 1, 0))
  {
  }

  lemma ClusInside(g: Geometry, c: nat)
    requires Laid(g) && 2 <= c < g.Limit()
    ensures DataOff(g) <= ClusOff(g, c) && ClusOff(g, c) + g.ClusterBytes() <= Size(g)
  {
    ClustersApart(g, c, c);
  }

  lemma ClusApart(g: Geometry, c: nat, d: nat)
    requires Laid(g) && 2 <= c < g.Limit() && 2 <= d < g.Limit() && c != d
    ensures ClusOff(g, c) + g.ClusterBytes() <= ClusOff(g, d) || ClusOff(g, d) + g.ClusterBytes() <= ClusOff(g, c)
  {
    ClustersApart(g, c, d);
  }

  function EntryAt(img: seq<byte>, g: Geometry, n: nat, c: nat): nat
    requires FatOff(g, n, c) + 4 <= |img|
  {
    R32(img, FatOff(g, n, c))
  }

  function ClusterAt(img: seq<byte>, g: Geometry, c: nat): seq<byte>
    requires c >= 2 && ClusOff(g, c) + g.ClusterBytes() <= |img|
  {
    img[ClusOff(g, c)..ClusOff(g, c) + g.ClusterBytes()]
  }

  ghost predicate SpelledFat(img: seq<byte>, g: Geometry, fat: seq<nat>) {
    && Laid(g) && |img| >= Size(g) && |fat| == g.Entries()
    && forall n: nat, c: nat :: n < 2 && c < |fat| ==> FatOff(g, n, c) + 4 <= |img| && EntryAt(img, g, n, c) == fat[c]
  }

  ghost predicate SpelledData(img: seq<byte>, g: Geometry, data: seq<seq<byte>>) {
    && Laid(g) && |img| >= Size(g) && |data| == g.Limit() && data[0] == data[1] == []
    && forall c: nat :: 2 <= c < g.Limit() ==>
         ClusOff(g, c) + g.ClusterBytes() <= |img| && ClusterAt(img, g, c) == data[c]
  }

  /** The boot sector of the partition: the driver binds it to the geometry (make_fat.py:177-205). */
  ghost predicate Booted(img: seq<byte>, g: Geometry, nsec: nat) {
    PART_START * SECTOR + SECTOR <= |img|
      && Bind(img[PART_START * SECTOR..PART_START * SECTOR + SECTOR]) == Bound(g, nsec)
  }

  lemma BootedIs(img: seq<byte>, g: Geometry, nsec: nat, boot: Sector)
    requires PART_START * SECTOR + SECTOR <= |img| && img[PART_START * SECTOR..PART_START * SECTOR + SECTOR] == boot
        && Bind(boot) == Bound(g, nsec)
    ensures Booted(img, g, nsec)
  {
  }

  lemma BootStays(img: seq<byte>, img': seq<byte>, g: Geometry, nsec: nat)
    requires Booted(img, g, nsec) && |img'| == |img|
        && forall i :: 0 <= i < (PART_START + RESERVED) * SECTOR && i < |img| ==> img'[i] == img[i]
    ensures Booted(img', g, nsec)
  {
    var a := PART_START * SECTOR;
    assert img'[a..a + SECTOR] == img[a..a + SECTOR];
  }

  /** One word rewritten: no other word that is clear of it changes. */
  lemma WordElsewhere(s: seq<byte>, o: nat, v: nat, k: nat)
    requires o + 4 <= |s| && k + 4 <= |s| && v < 0x1_0000_0000 && (k + 4 <= o || o + 4 <= k)
    ensures R32(W32(s, o, v), k) == R32(s, k)
  {
  }

  lemma SliceElsewhere(s: seq<byte>, o: nat, v: nat, a: nat, b: nat)
    requires o + 4 <= |s| && v < 0x1_0000_0000 && a <= b <= |s| && (b <= o || o + 4 <= a)
    ensures W32(s, o, v)[a..b] == s[a..b]
  {
  }

  /** One entry of one copy rewritten. */
  lemma EntrySet(img: seq<byte>, g: Geometry, n: nat, c: nat, val: nat, m: nat, k: nat)
    requires Laid(g) && |img| >= Size(g) && n < 2 && m < 2 && c < g.Entries() && k < g.Entries() && val < 0x1_0000_0000
    ensures FatOff(g, n, c) + 4 <= |img| && FatOff(g, m, k) + 4 <= |img|
    ensures EntryAt(W32(img, FatOff(g, n, c), val), g, m, k) == if m == n && k == c then val else EntryAt(img, g, m, k)
  {
    hide R32, W32;
    FatInside(g, n, c);
    FatInside(g, m, k);
    if m != n || k != c { WordElsewhere(img, FatOff(g, n, c), val, FatOff(g, m, k)); }
  }

  lemma FatSetBoth(img: seq<byte>, g: Geometry, fat: seq<nat>, c: nat, val: nat)
    requires SpelledFat(img, g, fat) && c < |fat| && val < 0x1000_0000
    ensures FatOff(g, 0, c) + 4 <= |img| && FatOff(g, 1, c) + 4 <= |img|
    ensures SpelledFat(W32(W32(img, FatOff(g, 0, c), val), FatOff(g, 1, c), val), g, fat[c := val])
  {
    hide R32, W32, FatOff, EntryAt;
    EntrySet(img, g, 0, c, val, 0, c);
    EntrySet(img, g, 1, c, val, 0, c);
    var a := W32(img, FatOff(g, 0, c), val);
    var b := W32(a, FatOff(g, 1, c), val);
    forall n: nat, k: nat | n < 2 && k < |fat|
      ensures FatOff(g, n, k) + 4 <= |b| && EntryAt(b, g, n, k) == fat[c := val][k] {
      EntrySet(img, g, 0, c, val, n, k);
      EntrySet(a, g, 1, c, val, n, k);
    }
  }

  lemma FatSetData(img: seq<byte>, g: Geometry, data: seq<seq<byte>>, n: nat, c: nat, val: nat)
    requires SpelledData(img, g, data) && n < 2 && c < g.Entries() && val < 0x1000_0000
    ensures FatOff(g, n, c) + 4 <= |img| && SpelledData(W32(img, FatOff(g, n, c), val), g, data)
  {
    hide R32, W32, FatOff, ClusOff, Size, DataOff;
    FatInside(g, n, c);
    var b := W32(img, FatOff(g, n, c), val);
    forall k: nat | 2 <= k < g.Limit()
      ensures ClusOff(g, k) + g.ClusterBytes() <= |b| && ClusterAt(b, g, k) == data[k] {
      ClusInside(g, k);
      SliceElsewhere(img, FatOff(g, n, c), val, ClusOff(g, k), ClusOff(g, k) + g.ClusterBytes());
    }
  }

  lemma PutWord(img: seq<byte>, at: nat, piece: seq<byte>, k: nat)
    requires at + |piece| <= |img| && k + 4 <= at
    ensures R32(Put(img, at, piece), k) == R32(img, k)
  {
  }

  /** Bytes written into cluster `c`, from its start. */
  lemma ClusterPut(img: seq<byte>, g: Geometry, fat: seq<nat>, data: seq<seq<byte>>, c: nat, piece: seq<byte>)
    requires SpelledFat(img, g, fat) && SpelledData(img, g, data) && 2 <= c < g.Limit() && |piece| <= g.ClusterBytes()
    ensures ClusOff(g, c) + |piece| <= |img| && |data[c]| == g.ClusterBytes()
    ensures var b := Put(img, ClusOff(g, c), piece);
            SpelledFat(b, g, fat) && SpelledData(b, g, data[c := Put(data[c], 0, piece)])
  {
    hide R32, Put, FatOff, ClusOff, Size, DataOff;
    ClusInside(g, c);
    var b := Put(img, ClusOff(g, c), piece);
    assert data[c] == ClusterAt(img, g, c);
    forall n: nat, k: nat | n < 2 && k < |fat| ensures FatOff(g, n, k) + 4 <= |b| && EntryAt(b, g, n, k) == fat[k] {
      FatInside(g, n, k);
      PutWord(img, ClusOff(g, c), piece, FatOff(g, n, k));
      assert EntryAt(img, g, n, k) == fat[k];
    }
    forall k: nat | 2 <= k < g.Limit()
      ensures ClusOff(g, k) + g.ClusterBytes() <= |b| && ClusterAt(b, g, k) == data[c := Put(data[c], 0, piece)][k]
    {
      ClusInside(g, k);
      PutSlice(img, ClusOff(g, c), piece, ClusOff(g, k), ClusOff(g, k) + g.ClusterBytes());
      if k != c { ClusApart(g, c, k); }
    }
  }

  // ---------------------------------------------------------------- the image

  // ---------------------------------------------------------------- a blank image

  /** A zeroed array spells an empty table and zeroed clusters. */
  lemma BlankSpells(img: seq<byte>, g: Geometry)
    requires Laid(g) && |img| >= Size(g) && forall i :: 0 <= i < |img| ==> img[i] == 0
    ensures SpelledFat(img, g, seq(g.Entries(), _ => 0)) && SpelledData(img, g, BlankData(g))
  {
    hide FatOff, ClusOff, Size;
    forall n: nat, c: nat | n < 2 && c < g.Entries()
      ensures FatOff(g, n, c) + 4 <= |img| && EntryAt(img, g, n, c) == 0 { FatInside(g, n, c); }
    forall c: nat | 2 <= c < g.Limit()
      ensures ClusOff(g, c) + g.ClusterBytes() <= |img| && ClusterAt(img, g, c) == BlankData(g)[c] { ClusInside(g, c); }
  }

  /** Zeroed clusters; those below 2 do not exist. */
  function BlankData(g: Geometry): (r: seq<seq<byte>>)
    ensures |r| == g.Limit() && forall c :: 0 <= c < |r| ==> r[c] == if c < 2 then [] else Zeros(g.ClusterBytes())
  {
    seq(g.Limit(), c requires 0 <= c < g.Limit() => if c < 2 then [] else Zeros(g.ClusterBytes()))
  }

  /** What is written before the tables changes neither them nor the clusters. */
  lemma HeadPut(img: seq<byte>, g: Geometry, fat: seq<nat>, data: seq<seq<byte>>, at: nat, piece: seq<byte>)
    requires SpelledFat(img, g, fat) && SpelledData(img, g, data) && at + |piece| <= (PART_START + RESERVED) * SECTOR
    ensures at + |piece| <= |img| && SpelledFat(Put(img, at, piece), g, fat)
        && SpelledData(Put(img, at, piece), g, data)
  {
    hide R32, Put, ClusOff, Size;
    FatInside(g, 0, 0);
    var b := Put(img, at, piece);
    forall n: nat, k: nat | n < 2 && k < |fat| ensures FatOff(g, n, k) + 4 <= |b| && EntryAt(b, g, n, k) == fat[k] {
      FatInside(g, n, k);
      HeadWord(img, at, piece, FatOff(g, n, k));
      assert EntryAt(img, g, n, k) == fat[k];
    }
    forall k: nat | 2 <= k < g.Limit()
      ensures ClusOff(g, k) + g.ClusterBytes() <= |b| && ClusterAt(b, g, k) == data[k] {
      ClusInside(g, k);
      PutSlice(img, at, piece, ClusOff(g, k), ClusOff(g, k) + g.ClusterBytes());
    }
  }

  lemma HeadWord(img: seq<byte>, at: nat, piece: seq<byte>, k: nat)
    requires at + |piece| <= k && k + 4 <= |img|
    ensures R32(Put(img, at, piece), k) == R32(img, k)
  {
  }

  /** "AUDIOS" and its serial number (make_fat.py:26, 195-196). */
  const IMAGE_TAG: Tag := Tag(0xA0D10500, [65, 85, 68, 73, 79, 83, 32, 32, 32, 32, 32])

  /** The volume label in the root (make_fat.py:243-249). */
  function LabelEntry(): Entry { IMAGE_TAG.text + [ATTR_VOL] + Zeros(20) }

  class Image {
    const img: array<byte>
    const g: Geometry
    const nsec: nat
    // The plain table and clusters the bytes spell, and how they hang together.
    ghost var fat: seq<nat>
    ghost var data: seq<seq<byte>>
    ghost var L: Layout

    ghost predicate Good()
      reads this`fat, this`data, img
    {
      && SpelledFat(img[..], g, fat) && SpelledData(img[..], g, data) && Booted(img[..], g, nsec)
      && forall c :: 0 <= c < |fat| ==> fat[c] < 0x1000_0000
    }

    ghost function State(): Vol
      reads this`fat, this`data, this`L
    {
      Vol(fat, data, L)
    }

    ghost function Per(): nat { g.spc * 16 }

    /**
     * A new image: boot sector and its copy, FSInfo, the first table entries, and the root with its
     * label (make_fat.py:101-112, 177-249). The partition table is not part of this model.
     */
    constructor (total: nat, spc: nat, fatSz: nat, clusters: nat)
      requires total >= 8 * 1024 * 1024 && total / SECTOR - PART_START < U32 && 32 <= fatSz < 65536
      requires Roomy(total / SECTOR - PART_START, spc, fatSz, clusters)
      ensures Valid() && g == Geometry(spc, fatSz, RESERVED, ROOT, clusters) && nsec == total / SECTOR - PART_START
      ensures img.Length == total && fresh(img) && L == FreshLayout() && FreshRoot(SlotsOf(data[2]))
          && |FreeSet(fat, g.Limit())| == clusters - 1
    {
      img := new byte[total](_ => 0);
      g := Geometry(spc, fatSz, RESERVED, ROOT, clusters);
      nsec := total / SECTOR - PART_START;
      fat, data, L := seq(fatSz * 128, _ => 0), BlankData(Geometry(spc, fatSz, RESERVED, ROOT, clusters)),
          FreshLayout();
      new;
      Begin(total);
    }

    /** Whether a geometry that fits is one the image can be laid out in. */
    lemma Sized512(total: nat)
      requires total / SECTOR - PART_START >= 0 && nsec == total / SECTOR - PART_START < U32 && g.fatBegin == RESERVED
          && g.rootClus == ROOT
      requires Roomy(nsec, g.spc, g.fatSz, g.total) && 32 <= g.fatSz < 65536
      ensures Laid(g) && Size(g) <= total && PerOk(Per()) && g.ClusterBytes() == Per() * 32 >= 64
    {
    }

    /** The boot sectors, their backup and the information sector (make_fat.py:177-212). */
    method BeginBoot(total: nat)
      requires img.Length == total && 0 <= nsec == total / SECTOR - PART_START < U32 && g.fatBegin == RESERVED
          && g.rootClus == ROOT
      requires Roomy(nsec, g.spc, g.fatSz, g.total) && 32 <= g.fatSz < 65536
      requires forall i :: 0 <= i < img.Length ==> img[i] == 0
      requires fat == seq(g.Entries(), _ => 0) && data == BlankData(g)
      modifies img
      ensures Good() && g.Entries() >= 4096
    {
      hide SpelledFat, SpelledData, Booted, Boot, FsInfo, Roomy, Bind, Size, Tag.Fits;
      Sized512(total);
      BlankSpells(img[..], g);
      assert IMAGE_TAG.Fits() by { TagFits(); }
      BindsBack(PART_START, nsec, g.spc, g.fatSz, g.total, IMAGE_TAG);
      var boot := Boot(PART_START, nsec, g.spc, g.fatSz, IMAGE_TAG);
      WriteHead(PART_START * SECTOR, boot);
      WriteHead((PART_START + 6) * SECTOR, boot);
      WriteHead((PART_START + 1) * SECTOR, FsInfo());
      assert img[..][PART_START * SECTOR..PART_START * SECTOR + SECTOR] == boot;
      BootedIs(img[..], g, nsec, boot);
    }

    /** The writes of the constructor. */
    method Begin(total: nat)
      requires img.Length == total >= 8 * 1024 * 1024 && nsec == total / SECTOR - PART_START < U32
          && g.fatBegin == RESERVED && g.rootClus == ROOT
      requires Roomy(nsec, g.spc, g.fatSz, g.total) && 32 <= g.fatSz < 65536
      requires (forall i :: 0 <= i < img.Length ==> img[i] == 0) && fat == seq(g.Entries(), _ => 0)
          && data == BlankData(g) && L == FreshLayout()
      modifies img, this`fat, this`data
      ensures Valid() && FreshRoot(SlotsOf(data[2])) && |FreeSet(fat, g.Limit())| == g.total - 1
    {
      hide SpelledFat, SpelledData, Booted, Roomy, FreshRoot, FreeSet, SlotsOf, Neat, Shuns;
      Sized512(total);
      BeginBoot(total);
      SetFat(0, 0x0FFFFFF8);
      SetFat(1, 0x0FFFFFFF);
      SetFat(2, 0x0FFFFFFF);
      Write(2, LabelEntry());
      LabelRoot(g.ClusterBytes(), LabelEntry());
      BeginValid();
    }

    static lemma TagFits()
      ensures IMAGE_TAG.Fits()
    {
    }

    /** Bytes before the tables. */
    method WriteHead(at: nat, piece: seq<byte>)
      requires SpelledFat(img[..], g, fat) && SpelledData(img[..], g, data)
          && at + |piece| <= (PART_START + RESERVED) * SECTOR
      modifies img
      ensures at + |piece| <= img.Length && img[..] == Put(old(img[..]), at, piece)
      ensures SpelledFat(img[..], g, fat) && SpelledData(img[..], g, data)
    {
      hide SpelledFat, SpelledData;
      HeadPut(img[..], g, fat, data, at, piece);
      ghost var was := img[..];
      forall i | 0 <= i < |piece| { img[at + i] := piece[i]; }
      assert img[..] == Put(was, at, piece);
    }

    /** What the constructor leaves is well formed and empty. */
    lemma BeginValid()
      requires Good() && PerOk(Per()) && g.ClusterBytes() == Per() * 32 && g.rootClus == ROOT && L == FreshLayout()
      requires fat == seq(g.Entries(), _ => 0)[0 := 0x0FFFFFF8][1 := EOC_MARK][2 := EOC_MARK] && |BlankData(g)| > 2
      requires data == BlankData(g)[2 := Put(Zeros(g.ClusterBytes()), 0, LabelEntry())]
      requires var s := SlotsOf(data[2]); FreshRoot(s) && Neat(s) && Shuns(s, 0)
      ensures Valid() && |FreeSet(fat, g.Limit())| == g.total - 1
    {
      hide SpelledFat, SpelledData, Booted, SlotsOf, FreshRoot, Neat, Shuns, FreeSet, ChainsOk, TreeOk;
      SizeFacts();
      FreshChains(fat, g.Limit());
      FreshFree(fat, g.Limit());
      assert forall c :: 2 <= c < g.Limit() ==> |data[c]| == g.ClusterBytes();
      OneCluster(data, g.Limit(), Per(), g);
      FreshTree(data, g.Limit(), Per());
    }

    /** _set_fat (make_fat.py:218-222). */
    method SetFat(c: nat, val: nat)
      requires Good() && c < |fat|
      modifies img, this`fat
      ensures Good() && fat == old(fat)[c := val % 0x1000_0000]
    {
      hide SpelledFat, SpelledData, Booted, W32;
      var v := val % 0x1000_0000;
      ghost var was := img[..];
      SizeFacts();
      FatSetBoth(img[..], g, fat, c, v);
      FatSetData(img[..], g, data, 0, c, v);
      PutW32(img, FatOff(g, 0, c), v);
      FatSetData(img[..], g, data, 1, c, v);
      PutW32(img, FatOff(g, 1, c), v);
      FatInside(g, 0, c);
      BootStays(was, img[..], g, nsec);
      fat := fat[c := v];
    }

    lemma SizeFacts()
      requires Good()
      ensures Laid(g) && |fat| == g.Entries() && g.Limit() <= |fat| && |data| == g.Limit() && g.Limit() <= BAD
          && g.ClusterBytes() > 0
    {
    }

    /** _get_fat (make_fat.py:224-227). */
    method GetFat(c: nat) returns (val: nat)
      requires Good() && c < |fat|
      ensures val == fat[c]
    {
      hide SpelledData, Booted;
      assert EntryAt(img[..], g, 0, c) == fat[c];
      var o := FatOff(g, 0, c);
      val := (img[o] as int + 0x100 * img[o+1] as int + 0x1_0000 * img[o+2] as int +
        0x100_0000 * img[o+3] as int) % 0x1000_0000;
    }

    /** Copy bytes into cluster `c`. */
    method Write(c: nat, piece: seq<byte>)
      requires Good() && 2 <= c < g.Limit() && |piece| <= g.ClusterBytes()
      modifies img, this`data
      ensures Good() && c < |old(data)| && |old(data)[c]| == g.ClusterBytes()
          && data == old(data)[c := Put(old(data)[c], 0, piece)]
    {
      hide SpelledFat, SpelledData, Booted;
      SizeFacts();
      ClusterPut(img[..], g, fat, data, c, piece);
      ghost var was := img[..];
      var at := ClusOff(g, c);
      forall i | 0 <= i < |piece| { img[at + i] := piece[i]; }
      assert img[..] == Put(was, at, piece);
      ClusInside(g, c);
      BootStays(was, img[..], g, nsec);
      data := data[c := Put(data[c], 0, piece)];
    }

    /** The bytes of cluster `c`. */
    method Get(c: nat) returns (bytes: seq<byte>)
      requires Good() && 2 <= c < g.Limit()
      ensures c < |data| && bytes == data[c]
    {
      hide SpelledFat, Booted;
      assert ClusterAt(img[..], g, c) == data[c];
      var at := ClusOff(g, c);
      bytes := img[at..at + g.ClusterBytes()];
      assert bytes == img[..][at..at + g.ClusterBytes()];
    }

    /** _alloc_clus: the first free cluster, zeroed; 0 for "FAT full" (make_fat.py:251-259). */
    method AllocClus() returns (c: nat)
      requires Good()
      modifies img, this`fat, this`data
      ensures Good()
      ensures c == 0 ==>
          fat == old(fat) && data == old(data) && forall k :: 2 <= k < g.Limit() && k < |fat| ==> fat[k] != 0
      ensures c != 0 ==>
          2 <= c < g.Limit() && c < |old(fat)| && c < |old(data)| && old(fat)[c] == 0
            && (forall k :: 2 <= k < c ==> old(fat)[k] != 0)
            && fat == old(fat)[c := EOC_MARK] && data == old(data)[c := Zeros(g.ClusterBytes())]
    {
      hide Good;
      SizeFacts();
      c := 2;
      while c < g.total + 2
        invariant 2 <= c <= g.total + 2 && Good() && fat == old(fat) && data == old(data)
        invariant forall k :: 2 <= k < c && k < |fat| ==> fat[k] != 0
      {
        var e := GetFat(c);
        if e == 0 {
          SetFat(c, 0x0FFFFFFF);
          ghost var was := data[c];
          Write(c, Zeros(g.ClusterBytes()));
          PutAllOver(was, Zeros(g.ClusterBytes()));
          return;
        }
        c := c + 1;
      }
      c := 0;
    }

    /** The bytes are sound and the table is made of the chains of `L`. */
    ghost predicate Hung()
      reads this`fat, this`data, this`L, img
    {
      Good() && Fine(State(), g.Limit(), Per()) && PerOk(Per()) && g.ClusterBytes() == Per() * 32
    }

    /** Where a walk down the chain of `h` stands after `i` hops, and where it goes next. */
    lemma Hop(h: nat, i: nat)
      requires Hung() && h in L.chains && i < |L.chains[h]|
      ensures var ch := L.chains[h];
        && 2 <= ch[i] < g.Limit() <= |fat| && ch[i] < |data| && ch[0] == h && Sized(data, ch, Per())
        && (forall j :: 0 <= j < i ==> ch[j] != ch[i])
        && if i + 1 < |ch| then fat[ch[i]] == ch[i+1] && 2 <= ch[i+1] < EOC else fat[ch[i]] >= EOC
    {
      hide SpelledFat, SpelledData;
      ChainsAreChains(fat, g.Limit(), L, h);
      HeadIs(fat, g.Limit(), L, h);
      assert Sized(data, L.chains[h], Per());
    }

    /** _read_dir_entries (make_fat.py:261-272). */
    method ReadDir(first: nat) returns (blob: seq<byte>)
      requires Hung() && first in L.chains
      ensures Holding(data, L.chains[first], Per(), blob)
    {
      hide Hung, Holding, Good, Sized;
      ghost var ch, i := L.chains[first], 0;
      HungFacts(first);
      HoldingNone(data, Per());
      blob := [];
      var clus, seen := first, {};
      while 2 <= clus < EOC
        invariant i <= |ch| && Holding(data, ch[..i], Per(), blob)
            && (if i < |ch| then clus == ch[i] && 2 <= clus < EOC else clus >= EOC)
        invariant forall k :: k in seen <==> k in ch[..i]
        decreases |ch| - i
      {
        Hop(first, i);
        assert clus !in ch[..i];
        if clus in seen {
          break;
        }
        seen := seen + {clus};
        var bytes := Get(clus);
        SizedPrefix(data, ch, Per(), i + 1);
        assert ch[..i] + [clus] == ch[..i+1];
        HoldingMore(data, ch[..i], Per(), blob, clus);
        blob := blob + bytes;
        clus := GetFat(clus);
        i := i + 1;
      }
      assert ch[..|ch|] == ch;
    }

    lemma HungFacts(first: nat)
      requires Hung() && first in L.chains
      ensures Good() && Laid(g) && |fat| == g.Entries() && g.Limit() <= |fat| && |data| == g.Limit() && g.Limit() <= BAD
      ensures PerOk(Per()) && g.ClusterBytes() == Per() * 32
      ensures |L.chains[first]| > 0 && L.chains[first][0] == first && 2 <= first < g.Limit()
          && Sized(data, L.chains[first], Per())
    {
      hide SpelledData;
      HeadIs(fat, g.Limit(), L, first);
      Hop(first, 0);
    }

    /** _write_dir_entries on bytes that fill the chain (make_fat.py:274-292). */
    method WriteDir(first: nat, blob: seq<byte>)
      requires Hung() && first in L.chains && |blob| == |L.chains[first]| * g.ClusterBytes()
      modifies img, this`data
      ensures Good() && Filled(old(data), data, L.chains[first], g.ClusterBytes(), blob, |L.chains[first]|)
    {
      hide Hung, Good, Filled, Sized, Piece, IsChain;
      ghost var ch, i, cb, limit := L.chains[first], 0, g.ClusterBytes(), g.Limit();
      ghost var was := data;
      HungFacts(first);
      HungChain(first);
      PieceEnd(|ch|, cb, 0);
      StoredNone(data, ch, cb, blob);
      var clus: nat, pos: nat, seen := first, 0, {};
      while 2 <= clus < EOC && pos < |blob|
        invariant Good() && Filled(was, data, ch, cb, blob, i) && Standing(ch, cb, |blob|, i, clus, pos)
        invariant forall k :: k in seen <==> k in ch[..i]
        decreases |ch| - i
      {
        HopOf(fat, limit, ch, i);
        assert clus !in ch[..i];
        if clus in seen {
          break;
        }
        seen := seen + {clus};
        StoredMore(was, data, ch, cb, blob, i);
        PieceIs(blob, cb, i);
        PutAll(clus, blob[pos..pos + g.ClusterBytes()]);
        PieceEnd(|ch|, cb, i + 1);
        pos := pos + g.ClusterBytes();
        clus := GetFat(clus);
        i := i + 1;
        assert ch[..i] == ch[..i-1] + [ch[i-1]];
      }
    }

    lemma HungChain(first: nat)
      requires Hung() && first in L.chains
      ensures IsChain(fat, g.Limit(), L.chains[first]) && forall k :: 0 <= k < |L.chains[first]| ==>
          L.chains[first][k] < |data|
    {
      hide Good;
      ChainsAreChains(fat, g.Limit(), L, first);
    }

    /** A whole cluster. */
    method PutAll(c: nat, piece: seq<byte>)
      requires Good() && 2 <= c < g.Limit() && |piece| == g.ClusterBytes()
      modifies img, this`data
      ensures Good() && c < |old(data)| && data == old(data)[c := piece]
    {
      hide Good;
      ghost var was := data;
      Write(c, piece);
      PutAllOver(was[c], piece);
    }

    // -------------------------------------------------------------- file contents

    /** The root's cluster is in use, so no other file gets it. */
    ghost predicate RootTaken()
      reads this`fat
    {
      |fat| > 2 && fat[2] != 0
    }

    /** alloc_clus with the root in use: a cluster of the free set, if it is not empty. */
    method AllocFree() returns (c: nat)
      requires Good() && RootTaken()
      modifies img, this`fat, this`data
      ensures Good() && RootTaken() && g.Limit() <= |old(fat)| == |fat| && |data| == |old(data)| == g.Limit()
      ensures c == 0 ==> fat == old(fat) && data == old(data) && |FreeSet(fat, g.Limit())| == 0
      ensures c != 0 ==>
          && 3 <= c < g.Limit() && old(fat)[c] == 0
          && fat == old(fat)[c := EOC_MARK] && data == old(data)[c := Zeros(g.ClusterBytes())]
    {
      hide Good, FreeSet;
      SizeFacts();
      c := AllocClus();
      if c == 0 { NoneFree(fat, g.Limit()); }
    }

    /** One turn of the loop of add_file: a cluster, linked behind `prev`, filled with `piece` (make_fat.py:352-362). */
    method AppendPiece(ghost first: nat, prev: nat, piece: seq<byte>, ghost fat0: seq<nat>, ghost ch: seq<nat>)
      returns (c: nat)
      requires Good() && RootTaken() && NoBad(fat, g.Limit()) && Growing(fat0, fat, g.Limit(), ch)
      requires Ends(ch, first, prev) && |piece| <= g.ClusterBytes()
      modifies img, this`fat, this`data
      ensures Good() && RootTaken() && g.Limit() <= |fat| == |old(fat)| && NoBad(fat, g.Limit())
      ensures c == 0 ==> fat == old(fat) && data == old(data) && |FreeSet(fat, g.Limit())| == 0
      ensures c != 0 ==> c !in ch && c < |data| == |old(data)| && Growing(fat0, fat, g.Limit(), ch + [c])
                         && data == old(data)[c := Pad(piece, g.ClusterBytes())]
      ensures c != 0 ==> |FreeSet(fat, g.Limit())| == |FreeSet(old(fat), g.Limit())| - 1
    {
      hide Good, Growing, NoBad, FreeSet;
      SizeFacts();
      c := AllocFree();
      if c == 0 {
        return;
      }
      GrowingStep(fat0, old(fat), g.Limit(), ch, c);
      GrowingSpace(fat0, old(fat), g.Limit(), ch, c);
      if prev != 0 {
        SetFat(prev, c);
      }
      assert fat == Linked(old(fat), ch, c);
      Write(c, piece);
      PutPad(piece, g.ClusterBytes());
    }

    /** The data half of add_file: a chain of new clusters that stores `bytes` (make_fat.py:347-363). */
    method WritePieces(bytes: seq<byte>) returns (ok: bool, first: nat, ghost ch: seq<nat>)
      requires Good() && RootTaken() && NoBad(fat, g.Limit())
      modifies img, this`fat, this`data
      ensures Good() && RootTaken() && g.Limit() <= |fat| == |old(fat)| && |data| == |old(data)|
          && Growing(old(fat), fat, g.Limit(), ch)
      ensures forall c :: 0 <= c < |data| && c !in ch ==> data[c] == old(data)[c]
      ensures ok <==> |FreeSet(old(fat), g.Limit())| >= NumClus(|bytes|, g.ClusterBytes())
      ensures ok ==> first == HeadOf(ch) && Chains.Stores(data, g.ClusterBytes(), ch, bytes)
      ensures ok ==> |FreeSet(fat, g.Limit())| == |FreeSet(old(fat), g.Limit())| - NumClus(|bytes|, g.ClusterBytes())
    {
      hide Good, NoBad, FreeSet, Growing, Written, Chunks, NumClus, Cut, Ends, Stores;
      SizeFacts();
      first, ch := 0, [];
      var left: nat, at: nat, prev := |bytes|, 0, 0;
      var cb := g.ClusterBytes();
      GrowingNone(fat, g.Limit());
      WrittenNone(data, cb, Chunks(bytes, cb));
      CutNone(bytes, cb);
      EndsNone();
      while left > 0
        invariant Good() && RootTaken() && at + left == |bytes| && g.Limit() <= |fat| == |old(fat)|
            && |data| == |old(data)|
        invariant Growing(old(fat), fat, g.Limit(), ch) && NoBad(fat, g.Limit()) && Ends(ch, first, prev)
        invariant |FreeSet(fat, g.Limit())| == |FreeSet(old(fat), g.Limit())| - |ch|
        invariant Written(old(data), data, cb, ch, Chunks(bytes, cb)) && Cut(bytes, cb, at, |ch|)
      {
        CutStep(bytes, cb, at, |ch|);
        var chunk := Min(left, cb);
        ghost var was := data;
        var c := AppendPiece(first, prev, bytes[at..at+chunk], old(fat), ch);
        if c == 0 {
          WrittenStores(old(data), data, cb, ch, bytes);
          return false, first, ch;
        }
        WrittenStep(old(data), was, cb, ch, Chunks(bytes, cb), c);
        EndsStep(ch, first, prev, c);
        if first == 0 {
          first := c;
        }
        at := at + chunk;
        left := left - chunk;
        prev := c;
        ch := ch + [c];
        if left == 0 {
          GrowingEnd(old(fat), fat, g.Limit(), ch);
          SetFat(c, 0x0FFFFFFF);
        }
      }
      CutAll(bytes, cb, |ch|);
      WrittenStores(old(data), data, cb, ch, bytes);
      EndsHead(ch, first, prev);
      ok := true;
    }

    // -------------------------------------------------------------- directory entries

    lemma HungIs()
      requires Hung()
      ensures Good() && Fine(State(), g.Limit(), Per()) && PerOk(Per())
          && g.ClusterBytes() == Per() * 32 == PerBytes(Per()) && g.Limit() <= |fat|
      ensures ChainsOk(fat, g.Limit(), L) && DataShape(data, g.Limit(), Per()) && Fits(data, L, Per())
    {
    }

    /** The last cluster of a chain (make_fat.py:371-380). */
    method Tail(first: nat) returns (tail: nat)
      requires Hung() && first in L.chains
      ensures L.chains[first] != [] && tail == LastOf(L, first)
    {
      hide Hung, Good, IsChain;
      ghost var ch, i := L.chains[first], 0;
      HungFacts(first);
      HungChain(first);
      tail := first;
      var seen := {};
      while 2 <= tail < EOC
        invariant i < |ch| && tail == ch[i] && 2 <= tail < EOC && forall k :: k in seen <==> k in ch[..i]
        decreases |ch| - i
      {
        HopOf(fat, g.Limit(), ch, i);
        assert tail !in ch[..i];
        if tail in seen {
          break;
        }
        seen := seen + {tail};
        var nxt := GetFat(tail);
        if nxt >= EOC {
          break;
        }
        tail := nxt;
        i := i + 1;
        assert ch[..i] == ch[..i-1] + [ch[i-1]];
      }
    }

    /** _grow_dir: a zeroed cluster linked behind the last one of the directory (make_fat.py:369-384). */
    method GrowDir(first: nat, blob: seq<byte>) returns (ok: bool, more: seq<byte>, ghost nw: nat)
      requires Hung() && RootTaken() && first in L.depth && first in L.chains
          && Holding(data, L.chains[first], Per(), blob)
      modifies img, this`fat, this`data, this`L
      ensures Hung() && RootTaken() && first in L.depth && first in L.chains && Fine(old(State()), g.Limit(), Per())
      ensures !ok ==> State() == old(State())
      ensures ok <==> |FreeSet(old(fat), g.Limit())| > 0
      ensures ok ==>
          nw != 0 && GrewBy(old(State()), State(), g.Limit(), Per(), first, nw)
            && Holding(data, L.chains[first], Per(), more)
    {
      hide Hung, Good, Holding, Sized, IsChain, Grew, FreeSet, ChainsOk, DataShape, Fits;
      ghost var limit, ch := g.Limit(), L.chains[first];
      HungFacts(first);
      HungIs();
      ok, more, nw := false, blob, 0;
      var tail := Tail(first);
      var newc := AllocFree();
      if newc == 0 {
        HungSame();
        return;
      }
      ghost var v := old(State());
      FreeNotEmpty(v.fat, limit, newc);
      FreeOffChains(v.fat, limit, v.L, newc);
      LastInside(v, limit, Per(), first);
      ItemsGrown(v.fat, v.data, limit, v.L, Per(), first, newc);
      HoldingGrown(v.data, ch, Per(), blob, newc);
      SetFat(tail, newc);
      L := Grown(L, first, newc);
      nw := newc;
      more := blob + Zeros(g.ClusterBytes());
      RootStays(v.fat, tail, newc);
      HungAgain();
      ok := true;
    }

    twostate lemma HungSame()
      requires old(Hung()) && Good() && State() == old(State())
      ensures Hung()
    {
    }

    lemma HungAgain()
      requires Good() && ChainsOk(fat, g.Limit(), L) && DataShape(data, g.Limit(), Per()) && Fits(data, L, Per())
      ensures Hung()
    {
    }

    lemma RootStays(was: seq<nat>, tail: nat, nw: nat)
      requires |was| > 2 && was[2] != 0 && nw < |was| && tail < |was| && nw >= 3
          && fat == was[nw := EOC_MARK][tail := nw]
      ensures RootTaken()
    {
    }

    lemma DirThere(dir: nat)
      requires Hung() && dir in L.depth
      ensures dir in L.chains && Sized(data, L.chains[dir], Per())
    {
      hide Good;
    }

    lemma HungByFine()
      requires Good() && Fine(State(), g.Limit(), Per())
      ensures Hung()
    {
    }

    /** A directory with `n` free slots from slot `s` on, which may take a new cluster (make_fat.py:412-418). */
    method MakeRoom(dir: nat, n: nat, ghost s: nat)
      returns (ok: bool, blob: seq<byte>, at: nat, ghost nw: nat, ghost x1: Vol)
      requires Hung() && RootTaken() && dir in L.depth && OpenAt(SlotsAt(data, L, Per(), dir), s) && n >= 1
      modifies img, this`fat, this`data, this`L
      ensures Hung() && RootTaken() && State() == x1 && Fine(old(State()), g.Limit(), Per())
          && Fine(x1, g.Limit(), Per()) && PerOk(Per())
      ensures GrewBy(old(State()), x1, g.Limit(), Per(), dir, nw) && dir in L.depth
          && OpenAt(SlotsAt(data, L, Per(), dir), s)
      ensures SlotsOf(blob) == SlotsAt(data, L, Per(), dir) && dir in L.chains
          && |blob| == |L.chains[dir]| * g.ClusterBytes()
      ensures |blob| == 32 * |SlotsAt(data, L, Per(), dir)|
      ensures ok ==> at == 32 * s && s + n <= |SlotsAt(data, L, Per(), dir)|
      ensures nw != 0 ==> s + n > |SlotsAt(old(data), old(L), Per(), dir)|
      ensures ok <==> HasRun(SlotsAt(old(data), old(L), Per(), dir), Per(), |FreeSet(old(fat), g.Limit())|, n)
    {
      hide Hung, Good, Holding, Sized, OpenAt, FreeSet, ChainsOk, DataShape, GrewBy, DirSlots, SlotsOf;
      ghost var v := State();
      HungIs();
      DirThere(dir);
      OpenIsFreeAt(SlotsAt(data, L, Per(), dir), s);
      nw, x1 := 0, v;
      GrewByNone(v, g.Limit(), Per(), dir);
      blob := ReadDir(dir);
      BlobIs(data, L, Per(), dir, blob);
      var slot := FreeSlots(blob, n, s);
      if slot < 0 {
        ok, blob, nw := GrowDir(dir, blob);
        if !ok {
          HungIs();
          GrewByNone(v, g.Limit(), Per(), dir);
          nw, at := 0, 0;
          blob := ReadDir(dir);
          BlobIs(data, L, Per(), dir, blob);
          return;
        }
        x1 := State();
        HungIs();
        DirThere(dir);
        BlobIs(data, L, Per(), dir, blob);
        GrewBySlots(v, x1, g.Limit(), Per(), dir, nw, s);
        slot := FreeSlots(blob, n, s);
      }
      ok, at := slot >= 0, if slot >= 0 then slot else 0;
    }

    /** _add_dirent: the records of a name, in the first free slots or a new cluster (make_fat.py:399-420). */
    method AddDirent(dir: nat, name: Name, attr: byte, clus: nat, size: nat, ghost s: nat)
      returns (ok: bool, ghost nw: nat, ghost recs: seq<Entry>, ghost x1: Vol)
      requires Hung() && RootTaken() && dir in L.depth && OpenAt(SlotsAt(data, L, Per(), dir), s)
      requires clus < 0x1_0000_0000 && size < 0x1_0000_0000 && attr in {ATTR_ARC, ATTR_DIR}
      modifies img, this`fat, this`data, this`L
      ensures Good() && RootTaken() && Fine(old(State()), g.Limit(), Per()) && Fine(x1, g.Limit(), Per())
          && PerOk(Per())
      ensures GrewBy(old(State()), x1, g.Limit(), Per(), dir, nw) && dir in x1.L.depth && |fat| == |x1.fat|
      ensures ok ==>
          Hung() && fat == x1.fat && L == x1.L && RecordsOf(recs, name, attr, clus, size) && Fits(data, L, Per())
            && recs != []
            && PutRun(x1.data, data, x1.L, Per(), dir, s, recs)
                          && OpenAt(SlotsAt(x1.data, x1.L, Per(), dir), s)
      ensures ok ==> |recs| == RunLength(name) && (nw != 0 ==> s + |recs| > |SlotsAt(old(data), old(L), Per(), dir)|)
      ensures ok <==>
          && Numbered(name)
          && HasRun(SlotsAt(old(data), old(L), Per(), dir), Per(), |FreeSet(old(fat), g.Limit())|, RunLength(name))
    {
      hide Hung, Good, Holding, Sized, RecordsOf, OpenAt, FreeSet, ChainsOk, DataShape, GrewBy, PutRun, Filled,
           DirSlots, SlotsOf, Overlay, Flat, HasRun, RunLength;
      HungIs();
      DirThere(dir);
      var records;
      ok, records := MakeRecords(name, attr, clus, size);
      recs := records;
      if !ok {
        nw, x1 := 0, State();
        GrewByNone(x1, g.Limit(), Per(), dir);
        return;
      }
      RunLengthIs(recs, name, attr, clus, size);
      var blob, at;
      ok, blob, at, nw, x1 := MakeRoom(dir, |records|, s);
      HungIs();
      if !ok {
        return;
      }
      SplicedSlots(blob, s, records);
      blob := blob[..at] + Flat(records) + blob[at + 32 * |records|..];
      WriteDir(dir, blob);
      RunWritten(x1, data, g.Limit(), Per(), dir, s, recs, blob);
      HungByFine();
    }

    // -------------------------------------------------------------- the calls

    /** The slots of every directory. */
    ghost function Tree(): Tree
      requires Hung()
      reads this`fat, this`data, this`L, img
    {
      AllSlots(data, L, Per())
    }

    /** The bytes are sound, the volume is well formed, and its directories are neat. */
    ghost predicate Valid()
      reads this`fat, this`data, this`L, img
      ensures Valid() ==> Hung()
    {
      Hung() && Sound(State(), g.Limit(), ROOT, Per()) && NeatTree(Tree(), 0)
    }

    lemma ValidFacts()
      requires Valid()
      ensures RootTaken() && ROOT in L.depth && ROOT in L.chains && NoBad(fat, g.Limit())
          && Fine(State(), g.Limit(), Per()) && PerOk(Per())
      ensures Tree() == TreeOf(State(), Per()) && Fits(data, L, Per()) && g.Limit() <= |fat|
          && |data| == g.Limit() < 0x1000_0000
    {
      hide Good, TreeOk, DirItems;
      ChainsInRange(fat, g.Limit(), L);
      RootIsThere(DirItems(data, L, Per()), L, ROOT);
      HeadIs(fat, g.Limit(), L, ROOT);
      assert HeadOk(L, ROOT);
    }

    /** _find_dir (make_fat.py:294-312). */
    method FindDir(parts: seq<Name>) returns (ok: bool, clus: nat)
      requires Valid()
      ensures ok <==> Led(State(), ROOT, Per(), parts).Some?
      ensures ok ==> Led(State(), ROOT, Per(), parts) == Some(clus) && clus in L.depth
    {
      hide Good, Hung, Valid, Holding, ShortName, FindShort, Trail, Fine, Sized, EntClus, Fits, AllSlots;
      ValidFacts();
      ghost var S := Tree();
      clus := 2;
      var k := 0;
      TrailStep(S, ROOT, ROOT, []);
      while k < |parts|
        invariant 0 <= k <= |parts| && clus in L.depth
            && Trail(S, ROOT, clus, parts[k..]) == Trail(S, ROOT, ROOT, parts)
      {
        var found, ent := Probe(clus, ShortName(parts[k]), S);
        TrailStep(S, ROOT, clus, parts[k..]);
        assert parts[k..][0] == parts[k] && parts[k..][1..] == parts[k+1..];
        if !found {
          return false, clus;
        }
        EntryLeads(clus, ShortName(parts[k]));
        EntClusIs(ent);
        clus := R16(ent, 20) * 0x10000 + R16(ent, 26);
        k := k + 1;
      }
      TrailStep(S, ROOT, clus, parts[k..]);
      ok := true;
    }

    static lemma EntClusIs(e: Entry)
      ensures EntClus(e) == R16(e, 20) * 0x10000 + R16(e, 26)
    {
    }

    /** One component: the directory entry spelt `want`. */
    method Probe(dir: nat, want: Name, ghost S: Tree) returns (found: bool, ent: Entry)
      requires Hung() && S == Tree() && dir in S
      ensures var r := FindShort(S[dir], want, 0); (found <==> r.Some?) && (found ==> ent == S[dir][r.value])
    {
      hide Good, Holding, FindShort, Fine, Sized, DirSlots, SlotsOf;
      DirThere(dir);
      var blob := ReadDir(dir);
      BlobIs(data, L, Per(), dir, blob);
      found, ent := ScanDir(blob, want);
    }

    /** A directory found names one. */
    lemma EntryLeads(d: nat, want: Name)
      requires Valid() && d in L.depth && d in Tree() && FindShort(Tree()[d], want, 0).Some?
      ensures var c := EntClus(Tree()[d][FindShort(Tree()[d], want, 0).value]); c != 0 && c in L.depth
    {
      hide Good, EntClus, IsDir, Dirs.Live, TreeOk, ChainsOk, DirSlots;
      ValidFacts();
      FoundThere(State(), g.Limit(), ROOT, Per(), d, want, FindShort(Tree()[d], want, 0).value);
    }

    /** A chain stored and kept aside: everything else is as before. */
    method StoreAside(bytes: seq<byte>) returns (ok: bool, first: nat, ghost ch: seq<nat>)
      requires Valid()
      modifies img, this`fat, this`data, this`L
      ensures Hung() && RootTaken() && Fine(State(), g.Limit(), Per()) && Fine(old(State()), g.Limit(), Per())
      ensures Growing(old(fat), fat, g.Limit(), ch) && Distinct(ch) && AllKept(old(State()), State(), 0)
          && L == Joined(old(L), ch, NOWHERE)
      ensures L.depth == old(L).depth && AllSlots(data, L, Per()) == AllSlots(old(data), old(L), Per())
      ensures ok <==> |FreeSet(old(fat), g.Limit())| >= NumClus(|bytes|, g.ClusterBytes())
      ensures ok ==> first == HeadOf(ch) < g.Limit() && Chains.Stores(data, g.ClusterBytes(), ch, bytes)
      ensures ok ==> |FreeSet(fat, g.Limit())| == |FreeSet(old(fat), g.Limit())| - NumClus(|bytes|, g.ClusterBytes())
    {
      hide Valid, Hung, Good, FreeSet, Stores, NumClus, Joined, Growing, NoBad, ChainsOk, AllSlots, SameChain,
           DataShape, DirItems, Sized;
      ghost var v := State();
      ValidFacts();
      HungIs();
      ok, first, ch := WritePieces(bytes);
      GoodShape();
      AddChain(v.fat, fat, v.data, data, g.Limit(), v.L, Per(), ch, NOWHERE);
      GrowingElsewhere(v.fat, fat, g.Limit(), ch);
      L := Joined(L, ch, NOWHERE);
      HungAgain();
      HungIs();
      AsideIs(v, State(), g.Limit(), Per());
    }

    lemma GoodShape()
      requires Good() && PerOk(Per())
      ensures DataShape(data, g.Limit(), Per()) && g.ClusterBytes() == Per() * 32
    {
    }

    /** Where the records of a new entry go: behind all others. */
    lemma OpenDir(d: nat) returns (s: nat)
      requires Valid() && d in L.depth
      ensures d in L.chains && Sized(data, L.chains[d], Per()) && d in Tree() && Tree()[d] == SlotsAt(data, L, Per(), d)
      ensures s == FreeAt(Tree()[d]) && OpenAt(SlotsAt(data, L, Per(), d), s)
    {
      hide Good, TreeOk, DirSlots, ChainsOk;
      ValidFacts();
      DirThere(d);
      TreeFacts(State(), g.Limit(), ROOT, Per());
      NeatOpen(Tree()[d]);
      s := FreeAt(Tree()[d]);
    }

    /** A name given to what was kept aside changes no chain. */
    lemma HungNamed(y: Vol)
      requires Good() && Fine(y, g.Limit(), Per()) && fat == y.fat && data == y.data && L.chains == y.L.chains
          && L.places == y.L.places
      requires forall d :: d in L.depth ==> d in L.chains
      ensures Hung()
    {
      hide Good, ChainsOk;
      ChainsIgnoreNames(fat, g.Limit(), y.L, L);
      ChainsFit(fat, data, g.Limit(), L, Per());
    }

    lemma ValidByDone(z: Vol)
      requires Good() && z == State() && Sound(z, g.Limit(), ROOT, Per()) && NeatTree(TreeOf(z, Per()), 0)
      ensures Valid()
    {
      hide Good, TreeOk, ChainsOk, NeatTree;
    }

    lemma ValidMends()
      requires Valid()
      ensures Mendable(State(), g.Limit(), ROOT, Per())
    {
      hide Good, ChainsOk, TreeOk;
      SoundMends(State(), g.Limit(), ROOT, Per());
    }

    /** The whole addition, once the records are written and the new chain has its name. */
    lemma NameFile(v: Vol, x: Vol, x1: Vol, y: Vol, nw: nat, d: nat, s: nat, recs: seq<Entry>, ch: seq<nat>, name: Name,
                   bytes: seq<byte>)
      requires Good() && PerOk(Per()) && fat == y.fat && data == y.data && g.Limit() < 0x1000_0000
      requires Sound(v, g.Limit(), ROOT, Per()) && NeatTree(TreeOf(v, Per()), 0)
      requires Fine(x, g.Limit(), Per()) && Fine(x1, g.Limit(), Per()) && Fine(y, g.Limit(), Per())
      requires Entering(v, x, x1, y, g.Limit(), Per(), d, nw, s, recs, ch)
          && Chains.Stores(x.data, PerBytes(Per()), ch, bytes)
      requires nw != 0 ==> s + |recs| > |SlotsAt(v.data, v.L, Per(), d)|
      requires HeadOf(ch) < g.Limit() && |bytes| < 0x1_0000_0000 && recs != []
      requires RecordsOf(recs, name, ATTR_ARC, HeadOf(ch), |bytes|)
          && L == Named(y.L, HeadOf(ch), Ref(d, s + |recs| - 1))
      ensures Inserted(v, State(), g.Limit(), Per(), d, recs)
      ensures Legible(name) ==>
          (Mendable(State(), g.Limit(), ROOT, Per()) <==>
           !DotName(NoSpaces(name)) && InSight(SlotsAt(v.data, v.L, Per(), d), name))
      ensures Legible(name) && !DotName(NoSpaces(name)) ==>
          if InSight(SlotsAt(v.data, v.L, Per(), d), name) then
            Valid() && Filed(v, State(), g.Limit(), ROOT, Per(), d, recs, HeadOf(ch), name, bytes)
          else AllUnseen(v, State(), g.Limit(), ROOT, Per())
    {
      hide Good, ChainsOk, TreeOk, DirSlots, DirItems, AllSlots, Sized, DataShape, Stores, RecordsOf, NeatTree, Valid,
           FileAdded, Kept, Named, Growing, Joined, AllKept, GrewBy, PutRun, OpenAt, FreeAt, NoSpaces, Mendable,
           Entering, Lies, Legible, RunLength, Inserted;
      EnteringDir(v, x, x1, y, g.Limit(), Per(), d, nw, s, recs, ch);
      NamedSame(y, g.Limit(), Per(), HeadOf(ch), Ref(d, s + |recs| - 1));
      EnteringPlaces(v, x, x1, y, State(), g.Limit(), Per(), d, nw, s, recs, ch);
      RunLengthIs(recs, name, ATTR_ARC, HeadOf(ch), |bytes|);
      EnteringInSight(v, x, x1, y, g.Limit(), ROOT, Per(), d, nw, s, recs, ch);
      if DotName(NoSpaces(name)) || !InSight(SlotsAt(v.data, v.L, Per(), d), name) {
        EnteringSpoils(v, x, x1, y, g.Limit(), ROOT, Per(), d, nw, s, recs, ch, name, ATTR_ARC, HeadOf(ch), |bytes|);
        MendAny(y, L, g.Limit(), ROOT, Per());
        if Legible(name) {
          RecordsAreRecords(recs, name, ATTR_ARC, HeadOf(ch), |bytes|);
          if !InSight(SlotsAt(v.data, v.L, Per(), d), name) { OutUnseen(v, State(), g.Limit(), ROOT, Per(), d, recs); }
        }
      } else if Legible(name) {
        FileDone(v, x, x1, y, g.Limit(), ROOT, Per(), 0, d, nw, s, recs, ch, name, bytes);
        InsertedDir(v, State(), g.Limit(), Per(), d, recs);
        ValidByDone(State());
        ValidMends();
      }
    }

    static lemma NamedSame(y: Vol, limit: nat, per: nat, h: nat, ref: Ref)
      requires Fine(y, limit, per)
      ensures var L := Named(y.L, h, ref);
              L.chains == y.L.chains && L.places == y.L.places && L.depth == y.L.depth
                && forall d :: d in L.depth ==> d in L.chains
    {
      hide ChainsOk;
    }

    static lemma NamedDirSame(y: Vol, limit: nat, per: nat, c: nat, ref: Ref)
      requires Fine(y, limit, per) && c in y.L.chains
      ensures var L := NamedDir(y.L, c, ref);
              L.chains == y.L.chains && L.places == y.L.places && (forall d :: d in y.L.depth ==> d in L.depth)
                && forall d :: d in L.depth ==> d in L.chains
    {
      hide ChainsOk;
    }

    static lemma InsertedDir(v: Vol, z: Vol, limit: nat, per: nat, dir: nat, recs: seq<Entry>)
      requires Inserted(v, z, limit, per, dir, recs)
      ensures Fine(v, limit, per) && Fine(z, limit, per) && dir in v.L.depth
          && Lies(TreeOf(v, per), TreeOf(z, per), dir, recs)
    {
      hide Lies, ChainsOk, DataShape, Kept;
    }

    /** What ends behind slot 4096 is seen by no path. */
    static lemma OutUnseen(v: Vol, z: Vol, limit: nat, root: nat, per: nat, dir: nat, recs: seq<Entry>)
      requires Sound(v, limit, root, per) && PerOk(per) && Inserted(v, z, limit, per, dir, recs) && Records(recs)
      requires dir in v.L.depth && FreeAt(SlotsAt(v.data, v.L, per, dir)) + |recs| > MAX_SLOTS
      ensures AllUnseen(v, z, limit, root, per)
    {
      hide Lies, ChainsOk, DataShape, Kept, Records, FreeAt, Unseen, DirSlots, TreeOk, DirItems;
      assert TreeOf(v, per)[dir] == SlotsAt(v.data, v.L, per, dir);
      forall q: seq<Name> ensures Unseen(v, z, limit, root, per, q) {
        PastUnseen(v, z, limit, root, per, dir, recs, q);
      }
    }

    /** add_file behind its lookup (make_fat.py:347-367). */
    method FileInto(d: nat, name: Name, bytes: seq<byte>, ghost s: nat)
      returns (ok: bool, ghost recs: seq<Entry>, ghost first: nat)
      requires Valid() && d in L.depth && d in L.chains && Sized(data, L.chains[d], Per()) && g.Limit() <= |fat|
      requires s == FreeAt(SlotsAt(data, L, Per(), d)) && OpenAt(SlotsAt(data, L, Per(), d), s)
      modifies img, this`fat, this`data, this`L
      ensures Good()
      ensures var need, free := NumClus(|bytes|, g.ClusterBytes()), |FreeSet(old(fat), g.Limit())|;
        ok <==>
          && free >= need && HasRun(old(SlotsAt(data, L, Per(), d)), Per(), free - need, RunLength(name))
          && |bytes| < 0x1_0000_0000 && Numbered(name)
      ensures ok ==> Inserted(old(State()), State(), g.Limit(), Per(), d, recs)
      ensures ok && Legible(name) ==>
          (Mendable(State(), g.Limit(), ROOT, Per()) <==>
           !DotName(NoSpaces(name)) && InSight(old(SlotsAt(data, L, Per(), d)), name))
      ensures ok && Legible(name) && !DotName(NoSpaces(name)) ==>
          if InSight(old(SlotsAt(data, L, Per(), d)), name) then
            Valid() && Filed(old(State()), State(), g.Limit(), ROOT, Per(), d, recs, first, name, bytes)
          else AllUnseen(old(State()), State(), g.Limit(), ROOT, Per())
    {
      hide Valid, Good, FreeSet, Stores, NumClus, Joined, Growing, NoBad, AllSlots, SameChain, DataShape, DirItems,
           Sized, ChainsOk, HasRun, RunLength, RecordsOf, GrewBy, Mendable, OpenAt, PutRun, FileAdded, Kept, AllKept,
           Hung, Filed, Inserted, Named, FreeAt, TreeOk, NeatTree, DirSlots, NoSpaces, InSight, AllUnseen, Legible,
           Numbered;
      recs, first := [], 0;
      ghost var v := State();
      ValidFacts();
      ValidIs();
      var at;
      ghost var ch;
      ok, at, ch := StoreAside(bytes);
      HungIs();
      if !ok || |bytes| >= 0x1_0000_0000 {
        return false, recs, first;
      }
      first := at;
      ghost var x := State();
      SameTree(v, x, Per(), d);
      ghost var nw, x1;
      ok, nw, recs, x1 := AddDirent(d, name, ATTR_ARC, at, |bytes|, s);
      if !ok {
        return;
      }
      HungIs();
      ghost var y := State();
      assert Entering(v, x, x1, y, g.Limit(), Per(), d, nw, s, recs, ch);
      L := Named(L, HeadOf(ch), Ref(d, s + |recs| - 1));
      NameFile(v, x, x1, y, nw, d, s, recs, ch, name, bytes);
    }

    lemma ValidIs()
      requires Valid()
      ensures Hung() && Sound(State(), g.Limit(), ROOT, Per()) && NeatTree(TreeOf(State(), Per()), 0)
    {
    }

    /**
     * add_file (make_fat.py:341-367). It fails exactly when the directory is not there, the bytes
     * or the records do not fit, the size does not fit its field or the name has too many fragments.
     * Exactly for names but "." and "..", and as long as the records end within the 4096 slots the
     * driver looks at, the volume is well formed again, and the driver reads the bytes under the new
     * entry's names and every other path as before; records that end behind are not seen by any path.
     */
    method AddFile(parts: seq<Name>, name: Name, bytes: seq<byte>)
      returns (ok: bool, ghost dir: nat, ghost recs: seq<Entry>, ghost first: nat)
      requires Valid()
      modifies img, this`fat, this`data, this`L
      ensures Good()
      ensures ok <==>
          CanTake(old(State()), g.Limit(), ROOT, Per(), parts, name, NumClus(|bytes|, g.ClusterBytes()))
            && |bytes| < 0x1_0000_0000
      ensures ok ==>
          Led(old(State()), ROOT, Per(), parts) == Some(dir)
            && Inserted(old(State()), State(), g.Limit(), Per(), dir, recs)
      ensures ok && Legible(name) ==>
          (Mendable(State(), g.Limit(), ROOT, Per()) <==>
           !DotName(NoSpaces(name)) && Sighted(old(State()), ROOT, Per(), parts, name))
      ensures ok && Legible(name) && !DotName(NoSpaces(name)) ==>
          if Sighted(old(State()), ROOT, Per(), parts, name) then
            Valid() && Filed(old(State()), State(), g.Limit(), ROOT, Per(), dir, recs, first, name, bytes)
          else AllUnseen(old(State()), State(), g.Limit(), ROOT, Per())
    {
      hide Valid, Good, FreeSet, NumClus, Mendable, DirItems, Sized, HasRun, RunLength, OpenAt, Hung, Led, Filed,
           Inserted, FreeAt, ChainsOk, DataShape, DirSlots, InSight, AllUnseen, Legible, Numbered, NoSpaces;
      recs, first := [], 0;
      ValidFacts();
      HungIs();
      var found, d := FindDir(parts);
      dir := d;
      if !found {
        return false, dir, recs, first;
      }
      ghost var s := OpenDir(d);
      ok, recs, first := FileInto(d, name, bytes, s);
    }

    /** The first free cluster, marked and given the two dot entries (make_fat.py:326-338). */
    method TakeDir(up: nat) returns (c: nat)
      requires Good() && RootTaken() && PerOk(Per()) && up < 0x1_0000_0000
      modifies img, this`fat, this`data
      ensures Good() && RootTaken() && g.Limit() <= |old(fat)| == |fat| && |data| == |old(data)| == g.Limit()
      ensures c == 0 ==> fat == old(fat) && data == old(data)
      ensures c == 0 <==> |FreeSet(old(fat), g.Limit())| == 0
      ensures c != 0 ==>
          Growing(old(fat), fat, g.Limit(), [c]) && 2 <= c < g.Limit() && DotSlots(SlotsOf(data[c]), c, up)
      ensures c != 0 ==> forall k :: 0 <= k < |data| && k != c ==> data[k] == old(data)[k]
      ensures c != 0 ==> |FreeSet(fat, g.Limit())| == |FreeSet(old(fat), g.Limit())| - 1
    {
      hide Good, FreeSet, DotSlots, SlotsOf, NewEntry, Growing;
      ghost var was := fat;
      SizeFacts();
      c := AllocFree();
      if c == 0 {
        return;
      }
      FreeNotEmpty(was, g.Limit(), c);
      FreeSetTake(was, g.Limit(), c, EOC_MARK);
      GrowingOne(was, g.Limit(), c);
      var dot: seq<byte>, dots: seq<byte> := DotEntry([DOT], c), DotEntry([DOT, DOT], up);
      DotsPut(g.ClusterBytes(), c, up, dot, dots);
      Write(c, dot + dots);
    }

    /** A new cluster with the two dot entries, kept aside (make_fat.py:326-338). */
    method NewDir(up: nat) returns (c: nat)
      requires Valid() && up < 0x1_0000_0000
      modifies img, this`fat, this`data, this`L
      ensures Hung() && RootTaken() && Fine(State(), g.Limit(), Per()) && Fine(old(State()), g.Limit(), Per())
      ensures c == 0 <==> |FreeSet(old(fat), g.Limit())| == 0
      ensures c != 0 ==>
          Growing(old(fat), fat, g.Limit(), [c]) && AllKept(old(State()), State(), 0)
            && L == Joined(old(L), [c], NOWHERE)
      ensures c != 0 ==> L.depth == old(L).depth && AllSlots(data, L, Per()) == AllSlots(old(data), old(L), Per())
      ensures c != 0 ==> 2 <= c < g.Limit() && c < |data| && c in L.chains && DotSlots(SlotsOf(data[c]), c, up)
      ensures c != 0 ==> |FreeSet(fat, g.Limit())| == |FreeSet(old(fat), g.Limit())| - 1
    {
      hide Valid, Hung, Good, FreeSet, Joined, Growing, NoBad, ChainsOk, AllSlots, SameChain, DataShape, DirItems,
           Sized, DotSlots, SlotsOf, NewEntry;
      ghost var v := State();
      ValidFacts();
      HungIs();
      c := TakeDir(up);
      if c == 0 {
        HungByFine();
        return;
      }
      GoodShape();
      AddChain(v.fat, fat, v.data, data, g.Limit(), v.L, Per(), [c], NOWHERE);
      L := Joined(L, [c], NOWHERE);
      HungAgain();
      HungIs();
      AsideIs(v, State(), g.Limit(), Per());
      JoinedHas(v.L, c);
    }

    lemma NameDir(v: Vol, x: Vol, x1: Vol, y: Vol, nw: nat, d: nat, s: nat, recs: seq<Entry>, c: nat, name: Name)
      requires Good() && PerOk(Per()) && fat == y.fat && data == y.data && g.Limit() < 0x1000_0000
      requires Sound(v, g.Limit(), ROOT, Per()) && NeatTree(TreeOf(v, Per()), 0) && d != 0
      requires Fine(x, g.Limit(), Per()) && Fine(x1, g.Limit(), Per()) && Fine(y, g.Limit(), Per())
      requires Entering(v, x, x1, y, g.Limit(), Per(), d, nw, s, recs, [c]) && 2 <= c < g.Limit()
          && DotSlots(SlotsOf(x.data[c]), c, d)
      requires nw != 0 ==> s + |recs| > |SlotsAt(v.data, v.L, Per(), d)|
      requires c in x.L.chains && recs != []
      requires RecordsOf(recs, name, ATTR_DIR, c, 0) && L == NamedDir(y.L, c, Ref(d, s + |recs| - 1))
      ensures Inserted(v, State(), g.Limit(), Per(), d, recs)
      ensures Legible(name) ==>
          (Mendable(State(), g.Limit(), ROOT, Per()) <==>
           !DotName(NoSpaces(name)) && InSight(SlotsAt(v.data, v.L, Per(), d), name))
      ensures Legible(name) && !DotName(NoSpaces(name)) ==>
          if InSight(SlotsAt(v.data, v.L, Per(), d), name) then
            Valid() && Made(v, State(), g.Limit(), ROOT, Per(), d, recs, c, name)
          else AllUnseen(v, State(), g.Limit(), ROOT, Per())
    {
      hide Good, ChainsOk, TreeOk, DirSlots, DirItems, AllSlots, Sized, DataShape, RecordsOf, NeatTree, Valid, DirAdded,
           Kept, DotSlots, SlotsOf, Growing, Joined, AllKept, GrewBy, PutRun, OpenAt, FreeAt, NoSpaces, Named, NamedDir,
           Mendable, Entering, Lies, Legible, RunLength, Inserted;
      EnteringDir(v, x, x1, y, g.Limit(), Per(), d, nw, s, recs, [c]);
      NamedDirSame(y, g.Limit(), Per(), c, Ref(d, s + |recs| - 1));
      EnteringPlaces(v, x, x1, y, State(), g.Limit(), Per(), d, nw, s, recs, [c]);
      RunLengthIs(recs, name, ATTR_DIR, c, 0);
      EnteringInSight(v, x, x1, y, g.Limit(), ROOT, Per(), d, nw, s, recs, [c]);
      if DotName(NoSpaces(name)) || !InSight(SlotsAt(v.data, v.L, Per(), d), name) {
        EnteringSpoils(v, x, x1, y, g.Limit(), ROOT, Per(), d, nw, s, recs, [c], name, ATTR_DIR, c, 0);
        MendAny(y, L, g.Limit(), ROOT, Per());
        if Legible(name) {
          RecordsAreRecords(recs, name, ATTR_DIR, c, 0);
          if !InSight(SlotsAt(v.data, v.L, Per(), d), name) { OutUnseen(v, State(), g.Limit(), ROOT, Per(), d, recs); }
        }
      } else if Legible(name) {
        DirDone(v, x, x1, y, g.Limit(), ROOT, Per(), 0, d, nw, s, recs, c, d, name);
        InsertedDir(v, State(), g.Limit(), Per(), d, recs);
        ValidByDone(State());
        ValidMends();
      }
    }

    /** mkdir behind its lookups (make_fat.py:326-339). */
    method MkdirInto(d: nat, name: Name, ghost s: nat) returns (ok: bool, ghost recs: seq<Entry>, ghost c: nat)
      requires Valid() && d in L.depth && d in L.chains && Sized(data, L.chains[d], Per()) && g.Limit() <= |fat|
          && 0 < d < 0x1_0000_0000
      requires s == FreeAt(SlotsAt(data, L, Per(), d)) && OpenAt(SlotsAt(data, L, Per(), d), s)
      modifies img, this`fat, this`data, this`L
      ensures Good()
      ensures var free := |FreeSet(old(fat), g.Limit())|;
        ok <==>
          free >= 1 && Numbered(name) && HasRun(old(SlotsAt(data, L, Per(), d)), Per(), free - 1, RunLength(name))
      ensures ok ==> Inserted(old(State()), State(), g.Limit(), Per(), d, recs)
      ensures ok && Legible(name) ==>
          (Mendable(State(), g.Limit(), ROOT, Per()) <==>
           !DotName(NoSpaces(name)) && InSight(old(SlotsAt(data, L, Per(), d)), name))
      ensures ok && Legible(name) && !DotName(NoSpaces(name)) ==>
          if InSight(old(SlotsAt(data, L, Per(), d)), name) then
            Valid() && Made(old(State()), State(), g.Limit(), ROOT, Per(), d, recs, c, name)
          else AllUnseen(old(State()), State(), g.Limit(), ROOT, Per())
    {
      hide Valid, Good, FreeSet, Joined, Growing, NoBad, AllSlots, SameChain, DataShape, DirItems, Sized, ChainsOk,
           DotSlots, SlotsOf, HasRun, RunLength, RecordsOf, GrewBy, Mendable, OpenAt, PutRun, DirAdded, Kept, AllKept,
           Hung, Made, Inserted, NamedDir, FreeAt, TreeOk, NeatTree, DirSlots, NoSpaces, InSight, AllUnseen, Legible,
           Numbered;
      recs := [];
      ghost var v := State();
      ValidFacts();
      ValidIs();
      var newc := NewDir(d);
      c := newc;
      HungIs();
      if newc == 0 {
        return false, recs, c;
      }
      ghost var x := State();
      SameTree(v, x, Per(), d);
      ghost var nw, x1;
      ok, nw, recs, x1 := AddDirent(d, name, ATTR_DIR, newc, 0, s);
      if !ok {
        return;
      }
      HungIs();
      ghost var y := State();
      assert Entering(v, x, x1, y, g.Limit(), Per(), d, nw, s, recs, [c]);
      L := NamedDir(L, c, Ref(d, s + |recs| - 1));
      NameDir(v, x, x1, y, nw, d, s, recs, c, name);
    }

    /**
     * mkdir (make_fat.py:314-339). A directory whose short name is in use there already is left
     * alone; otherwise it fails exactly when its parent is not there or there is no room. The volume
     * stays well formed under the same condition as with add_file.
     */
    method Mkdir(parts: seq<Name>, name: Name)
      returns (ok: bool, ghost dir: nat, ghost there: bool, ghost recs: seq<Entry>, ghost c: nat)
      requires Valid()
      modifies img, this`fat, this`data, this`L
      ensures Good()
      ensures there <==> Occupied(old(State()), ROOT, Per(), parts, name)
      ensures ok <==> there || CanTake(old(State()), g.Limit(), ROOT, Per(), parts, name, 1)
      ensures there ==> State() == old(State()) && Valid()
      ensures ok && !there ==>
          Led(old(State()), ROOT, Per(), parts) == Some(dir)
            && Inserted(old(State()), State(), g.Limit(), Per(), dir, recs)
      ensures ok && !there && Legible(name) ==>
          (Mendable(State(), g.Limit(), ROOT, Per()) <==>
           !DotName(NoSpaces(name)) && Sighted(old(State()), ROOT, Per(), parts, name))
      ensures ok && !there && Legible(name) && !DotName(NoSpaces(name)) ==>
          if Sighted(old(State()), ROOT, Per(), parts, name) then
            Valid() && Made(old(State()), State(), g.Limit(), ROOT, Per(), dir, recs, c, name)
          else AllUnseen(old(State()), State(), g.Limit(), ROOT, Per())
    {
      hide Valid, Good, FreeSet, Mendable, DirItems, Sized, HasRun, RunLength, OpenAt, Hung, Led, Made, Inserted,
           FreeAt, ChainsOk, DataShape, DirSlots, ShortName, Listed, SlotsOf, Holding, InSight, AllUnseen, Legible,
           Numbered, NoSpaces;
      recs, c, there := [], 0, false;
      ValidFacts();
      HungIs();
      var found, d := FindDir(parts);
      dir := d;
      if !found {
        return false, dir, there, recs, c;
      }
      ghost var s := OpenDir(d);
      var blob := ReadDir(d);
      BlobIs(data, L, Per(), d, blob);
      var listed := IsListed(blob, ShortName(name));
      there := listed;
      if listed {
        return true, dir, there, recs, c;
      }
      DirNumber(d);
      ok, recs, c := MkdirInto(d, name, s);
    }

    lemma DirNumber(d: nat)
      requires Hung() && d in L.depth
      ensures 2 <= d < g.Limit() <= BAD
    {
      hide Good;
      DirThere(d);
      HungFacts(d);
    }

    // -------------------------------------------------------------- a list of calls

    /** When a call succeeds. */
    static ghost predicate Can(v: Vol, limit: nat, per: nat, op: Builds.Op) {
      match op
      case AddFile(parts, name, bytes) =>
        PerOk(per) && CanTake(v, limit, ROOT, per, parts, name, NumClus(|bytes|, PerBytes(per)))
          && |bytes| < 0x1_0000_0000
      case Mkdir(parts, name) => Occupied(v, ROOT, per, parts, name) || CanTake(v, limit, ROOT, per, parts, name, 1)
    }

    /** Whether the records of a call would end within the slots the driver looks at. */
    method Looked(op: Builds.Op) returns (r: bool)
      requires Valid()
      ensures r <==> Sighted(State(), ROOT, Per(), op.parts, op.name)
    {
      hide Valid, Good, Hung, Led, ChainsOk, DataShape, DirSlots, SlotsOf, Holding, Sized, FreeAt, OpenAt, RunLength;
      ValidFacts();
      HungIs();
      var found, d := FindDir(op.parts);
      if !found {
        return false;
      }
      ghost var s := OpenDir(d);
      var blob := ReadDir(d);
      BlobIs(data, L, Per(), d, blob);
      r := FreeAt(SlotsOf(blob)) + RunLength(op.name) <= MAX_SLOTS;
    }

    /**
     * A list of calls, one after another (make_fat.py:314-367). It stops when one fails, or in front of
     * one that would leave the image not well formed; up to there the image comes about by a run of
     * additions.
     */
    method Fill(ops: seq<Builds.Op>) returns (ok: bool, n: nat, ghost vs: seq<Vol>, ghost deeds: seq<Builds.Deed>)
      requires Valid()
      modifies img, this`fat, this`data, this`L
      ensures Good() && Builds.Run(vs, deeds, g.Limit(), ROOT, Per(), 0) && vs != [] && vs[0] == old(State())
      ensures n <= |ops| && |deeds| == n && |vs| == n + 1 && forall i :: 0 <= i < n ==> deeds[i].op == ops[i]
      ensures if ok then
                && Valid() && vs[n] == State()
                && (n < |ops| ==> !Builds.Sane(ops[n]) || !Sighted(State(), ROOT, Per(), ops[n].parts, ops[n].name))
              else n < |ops| && !Can(vs[n], g.Limit(), Per(), ops[n])
    {
      hide Valid, Good, Hung, Occupied, Builds.Did, Builds.Run, Builds.Sane, Fine, Sighted, Can, FreeSet;
      vs, deeds, ok, n := [State()], [], true, 0;
      RunStarts();
      while n < |ops|
        invariant 0 <= n <= |ops| && ok && Valid() && Builds.Run(vs, deeds, g.Limit(), ROOT, Per(), 0)
            && |vs| == |deeds| + 1 == n + 1
        invariant vs[0] == old(State()) && vs[n] == State() && forall k :: 0 <= k < n ==> deeds[k].op == ops[k]
      {
        var seen := Looked(ops[n]);
        if !Builds.Sane(ops[n]) || !seen {
          StateFine();
          return;
        }
        ghost var d;
        ok, d := Obey(ops[n]);
        if !ok {
          return;
        }
        StateFine();
        Builds.RunMore(vs, deeds, g.Limit(), ROOT, Per(), 0, State(), d);
        vs, deeds := vs + [State()], deeds + [d];
        n := n + 1;
      }
      StateFine();
    }

    lemma StateFine()
      requires Valid()
      ensures Good() && Fine(State(), g.Limit(), Per())
    {
      hide Good, ChainsOk, TreeOk;
    }

    lemma RunStarts()
      requires Valid()
      ensures Good() && Builds.Run([State()], [], g.Limit(), ROOT, Per(), 0)
    {
      hide Good, ChainsOk, TreeOk;
    }

    method Obey(op: Builds.Op) returns (ok: bool, ghost d: Builds.Deed)
      requires Valid() && Builds.Sane(op) && Sighted(State(), ROOT, Per(), op.parts, op.name)
      modifies img, this`fat, this`data, this`L
      ensures Good()
      ensures ok <==> Can(old(State()), g.Limit(), Per(), op)
      ensures ok ==> Valid() && d.op == op && Builds.Did(old(State()), State(), g.Limit(), ROOT, Per(), 0, d)
    {
      hide Valid, Good, Hung, CanTake, Occupied, Fine, TreeOk, NeatTree, Filed, Made, Led, Sighted, Inserted, AllUnseen,
           FreeSet, NumClus, Mendable;
      ValidFacts();
      ValidIs();
      ghost var dir, recs, first, there;
      match op
      case AddFile(parts, name, bytes) =>
        ok, dir, recs, first := AddFile(parts, name, bytes);
        d := Builds.Deed(op, dir, recs, first, false);
      case Mkdir(parts, name) =>
        ok, dir, there, recs, first := Mkdir(parts, name);
        d := Builds.Deed(op, dir, recs, first, there);
    }
  }

  // ---------------------------------------------------------------- building and mounting

  /** FatImage(total_bytes): between 8 MiB and 32 GiB it never fails (make_fat.py:101-112). */
  method Build(total: nat) returns (ok: bool, im: Image?)
    ensures ok ==>
        im != null && fresh(im) && fresh(im.img) && im.Valid() && im.img.Length == total
          && im.nsec == total / SECTOR - PART_START
    ensures ok ==>
        im.L == FreshLayout() && FreshRoot(SlotsOf(im.data[2])) && |FreeSet(im.fat, im.g.Limit())| == im.g.total - 1
    ensures 8 * 1024 * 1024 <= total <= 32 * 1024 * 1024 * 1024 ==> ok
  {
    hide Roomy, FreshRoot, FreeSet, SlotsOf, Image.Valid;
    im := null;
    if total < 8 * 1024 * 1024 || total / SECTOR - PART_START >= U32 {
      return false, im;
    }
    var spc, fatSz, clusters;
    ok, spc, fatSz, clusters := ImageGeom(total / SECTOR - PART_START);
    if ok {
      im := new Image(total, spc, fatSz, clusters);
    }
  }

  /** The bytes, cut into sectors. */
  ghost predicate Cut512(img: seq<byte>, d: seq<Sector>) {
    |d| == |img| / SECTOR && forall k :: 0 <= k < |d| ==>
      k * SECTOR + SECTOR <= |img| && d[k] == img[k * SECTOR..k * SECTOR + SECTOR]
  }

  lemma WordOfSector(img: seq<byte>, d: seq<Sector>, k: nat, o: nat)
    requires Cut512(img, d) && k < |d| && o + 4 <= SECTOR
    ensures k * SECTOR + o + 4 <= |img| && R32(d[k], o) == R32(img, k * SECTOR + o)
  {
  }

  /** The driver reads the table the image spells. */
  lemma TableRead(img: seq<byte>, d: seq<Sector>, g: Geometry, fat: seq<nat>)
    requires SpelledFat(img, g, fat) && Cut512(img, d) && forall c :: 0 <= c < |fat| ==> fat[c] < 0x1000_0000
    ensures PART_START + g.DataBegin() + g.total * g.spc <= |d|
        && TableOf(d, PART_START + g.fatBegin, g.Entries()) == fat
  {
    hide R32, EntryAt, Cut512;
    DiskSize(img, d, g);
    var t := TableOf(d, PART_START + g.fatBegin, g.Entries());
    forall i | 0 <= i < |t| ensures t[i] == fat[i] {
      WordOfSector(img, d, PART_START + g.fatBegin + i / 128, i % 128 * 4);
      assert EntryAt(img, g, 0, i) == fat[i];
      EntryIs(img, g, 0, i);
    }
  }

  lemma EntryIs(img: seq<byte>, g: Geometry, n: nat, i: nat)
    requires n < 2 && Laid(g) && i < g.Entries() && |img| >= Size(g) && FatOff(g, n, i) + 4 <= |img|
    ensures EntryAt(img, g, n, i) == R32(img, FatOff(g, n, i))
    ensures FatOff(g, n, i) == (PART_START + g.fatBegin + n * g.fatSz + i / 128) * SECTOR + i % 128 * 4
  {
    hide R32;
  }

  lemma DiskSize(img: seq<byte>, d: seq<Sector>, g: Geometry)
    requires Laid(g) && |img| >= Size(g) && Cut512(img, d)
    ensures PART_START + g.DataBegin() + g.total * g.spc <= |d|
  {
  }

  lemma {:induction false} SectorsRead(img: seq<byte>, d: seq<Sector>, lba: nat, n: nat)
    requires Cut512(img, d) && lba + n <= |d|
    ensures (lba + n) * SECTOR <= |img| && Sectors(d, lba, n) == img[lba * SECTOR..(lba + n) * SECTOR]
  {
    if n > 0 { SectorsRead(img, d, lba, n - 1); }
    assert (lba + n) * SECTOR <= |img|;
  }

  /** The driver reads the clusters the image holds. */
  lemma DataRead(img: seq<byte>, d: seq<Sector>, g: Geometry, data: seq<seq<byte>>)
    requires SpelledData(img, g, data) && Cut512(img, d) && PART_START + g.DataBegin() + g.total * g.spc <= |d|
    ensures DataOf(d, PART_START, g) == data
  {
    hide Cut512;
    var t := DataOf(d, PART_START, g);
    forall c | 0 <= c < |t| ensures t[c] == data[c] {
      if c >= 2 {
        ClustersApart(g, c, c);
        SectorsRead(img, d, PART_START + g.ClusLba(c), g.spc);
        assert ClusterAt(img, g, c) == data[c];
      }
    }
  }

  lemma SameFour(a: seq<byte>, o: nat, b: seq<byte>, p: nat)
    requires o + 4 <= |a| && p + 4 <= |b| && R32(a, o) == R32(b, p)
    ensures a[o] == b[p] && a[o+1] == b[p+1] && a[o+2] == b[p+2] && a[o+3] == b[p+3]
  {
    var x, y := a[o+2] as int + 0x100 * a[o+3] as int, b[p+2] as int + 0x100 * b[p+3] as int;
    LowDigit(a[o], b[p], a[o+1] as int + 0x100 * x, b[p+1] as int + 0x100 * y);
    LowDigit(a[o+1], b[p+1], x, y);
    LowDigit(a[o+2], b[p+2], a[o+3], b[p+3]);
  }

  lemma LowDigit(a: byte, b: byte, x: int, y: int)
    requires a as int + 0x100 * x == b as int + 0x100 * y
    ensures a == b && x == y
  {
  }

  /** Both tables of the image are the same, sector by sector. */
  lemma TablesEqual(img: seq<byte>, d: seq<Sector>, g: Geometry, fat: seq<nat>, s: nat)
    requires SpelledFat(img, g, fat) && Cut512(img, d) && s < g.fatSz && PART_START + g.DataBegin() <= |d|
    ensures d[PART_START + g.fatBegin + s] == d[PART_START + g.fatBegin + g.fatSz + s]
  {
    hide R32, EntryAt, Cut512, FatOff;
    var a, b := d[PART_START + g.fatBegin + s], d[PART_START + g.fatBegin + g.fatSz + s];
    forall k | 0 <= k < 512 ensures a[k] == b[k] {
      var i := s * 128 + k / 4;
      assert i / 128 == s && i % 128 == k / 4;
      assert EntryAt(img, g, 0, i) == fat[i] == EntryAt(img, g, 1, i);
      EntryIs(img, g, 0, i);
      EntryIs(img, g, 1, i);
      WordOfSector(img, d, PART_START + g.fatBegin + s, k / 4 * 4);
      WordOfSector(img, d, PART_START + g.fatBegin + g.fatSz + s, k / 4 * 4);
      SameFour(a, k / 4 * 4, b, k / 4 * 4);
      assert k == k / 4 * 4 + k % 4;
    }
  }

  /** The disk reaches as far as the geometry says, and its first partition sector binds. */
  lemma BootRead(img: seq<byte>, disk: seq<Sector>, g: Geometry, nsec: nat, fat: seq<nat>)
    requires SpelledFat(img, g, fat) && Booted(img, g, nsec) && Cut512(img, disk)
    ensures g.Ok() && PART_START + g.DataBegin() + g.total * g.spc <= |disk| && PART_START + g.DataBegin() <= |disk|
    ensures Bind(disk[PART_START]) == Bound(g, nsec)
  {
    hide Bind, EntryAt;
    DiskSize(img, disk, g);
  }

  /** Both tables of the disk agree. */
  lemma TablesAgree(img: seq<byte>, vol: Volume)
    requires vol.Geom() && vol.partLba == PART_START
    requires SpelledFat(img, vol.g, vol.fat) && Cut512(img, vol.disk[..])
    ensures vol.Mirrored()
  {
    hide SpelledFat, Cut512;
    forall s: nat | s < vol.g.fatSz ensures vol.Copy1(s) == vol.Copy2(s) {
      TablesEqual(img, vol.disk[..], vol.g, vol.fat, s);
    }
  }

  /** The file the image is written to, as a disk. */
  method WriteOut(im: Image) returns (disk: array<Sector>)
    ensures fresh(disk) && Cut512(im.img[..], disk[..])
  {
    var n := im.img.Length / SECTOR;
    disk := new Sector[n](k requires 0 <= k < n reads im.img => im.img[k * SECTOR..k * SECTOR + SECTOR]);
  }

  /**
   * The driver mounts the image: fat_bind takes its boot sector, both tables agree, and the volume
   * is well formed, with the image's own directories and files (fat.c:1220-1293).
   */
  method MountImage(im: Image) returns (vol: Volume)
    requires im.Valid()
    ensures fresh(vol) && vol.Healthy() && vol.Mirrored() && !vol.dirty
    ensures vol.g == im.g && vol.partLba == PART_START < vol.disk.Length
    ensures Bind(vol.disk[PART_START]) == Bound(im.g, im.nsec) && vol.State() == im.State()
  {
    hide Sound, NeatTree, Fine, Bind, Cut512, SpelledFat, SpelledData, TableOf, DataOf, Volume.Valid, Volume.Healthy,
         Volume.Mirrored, Image.Tree;
    var disk := WriteOut(im);
    ghost var img := im.img[..];
    BootRead(img, disk[..], im.g, im.nsec, im.fat);
    TableRead(img, disk[..], im.g, im.fat);
    DataRead(img, disk[..], im.g, im.data);
    vol := new Volume.Mount(disk, PART_START, im.g, im.L);
    im.SizeFacts();
    TablesAgree(img, vol);
    vol.Heal();
  }
}
