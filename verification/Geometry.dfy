/**
 * How a FAT32 partition is laid out: what the boot sector says, which clusters can be
 * allocated, and how mkfs sizes a new one (kernel/src/fat.c:257-303, 1220-1293, 1374-1397).
 * Fields are 32-bit words; where the driver's arithmetic can wrap, so does this.
 */
module Geometries {
  import opened Bytes
  import opened Chains

  const U32: nat := 0x1_0000_0000

  /** What fat_bind derives from the boot sector. */
  datatype Geometry = Geometry(spc: nat, fatSz: nat, fatBegin: nat, rootClus: nat, total: nat)
  {
    function DataBegin(): nat { fatBegin + 2 * fatSz }
    function ClusterBytes(): nat { spc * SECTOR }
    /** One past the highest cluster number. */
    function Limit(): nat { total + 2 }
    function Entries(): nat { fatSz * 128 }

    ghost predicate Ok() {
      && spc in {1, 2, 4, 8}
      && fatBegin >= 1 && 1 <= fatSz < 0x80_0000
      && total >= 1 && Limit() <= Entries() && Limit() <= BAD
      && 2 <= rootClus < Limit()
    }

    /** First sector of cluster `c`, relative to the partition (fat.c:257-260). */
    function ClusLba(c: nat): nat
      requires c >= 2
    {
      DataBegin() + (c - 2) * spc
    }
  }

  /** `a / spc` for a legal number of sectors a cluster. */
  function Quot(a: nat, spc: nat): (q: nat)
    requires spc in {1, 2, 4, 8}
    ensures q * spc <= a < q * spc + spc && q == a / spc
  {
    if spc == 1 then a else if spc == 2 then a / 2 else if spc == 4 then a / 4 else a / 8
  }

  lemma {:induction false} SpcTimes(spc: nat, a: nat, b: nat)
    requires a < b
    ensures a * spc + spc <= b * spc
    decreases b
  {
    if b > a + 1 { SpcTimes(spc, a, b - 1); }
    assert b * spc == (b - 1) * spc + spc;
  }

  /** Sectors of distinct clusters do not meet, and none leaves the data area. */
  lemma ClustersApart(g: Geometry, c: nat, d: nat)
    requires g.Ok() && 2 <= c < g.Limit() && 2 <= d < g.Limit()
    ensures c < d ==> g.ClusLba(c) + g.spc <= g.ClusLba(d)
    ensures d < c ==> g.ClusLba(d) + g.spc <= g.ClusLba(c)
    ensures g.DataBegin() <= g.ClusLba(c)
    ensures g.ClusLba(c) + g.spc <= g.DataBegin() + g.total * g.spc
  {
    if c < d { SpcTimes(g.spc, c - 2, d - 2); }
    if d < c { SpcTimes(g.spc, d - 2, c - 2); }
    SpcTimes(g.spc, c - 2, g.total);
  }

  // ---------------------------------------------------------------- binding

  /** fat_max_clus (fat.c:292-303). */
  function FatMaxClus(fatSz: nat, total: nat): nat {
    var entries := fatSz * SECTOR % U32 / 4;
    if entries < 4 then 2 else if entries - 2 > total then total else entries - 2
  }

  datatype Bound = Refused | Bound(g: Geometry, totsec: nat)

  /** fat_bind on a boot sector (fat.c:1230-1275). */
  function Bind(bpb: Sector): Bound {
    if bpb[510] != 0x55 || bpb[511] != 0xAA then Refused
    else if R16(bpb, 11) != SECTOR then Refused
    else if bpb[13] !in {1, 2, 4, 8} then Refused
    else
      var spc, reserved, fatSz, root := bpb[13], R16(bpb, 14), R32(bpb, 36), R32(bpb, 44);
      if fatSz == 0 || bpb[16] != 2 || reserved == 0 || root < 2 then Refused
      else Derive(spc, reserved, fatSz, root, if R32(bpb, 32) == 0 then R16(bpb, 19) else R32(bpb, 32))
  }

  /** The derived fields (fat.c:1259-1275). */
  function Derive(spc: nat, reserved: nat, fatSz: nat, root: nat, totsec: nat): Bound
    requires spc in {1, 2, 4, 8}
  {
    var dataBegin := (reserved + 2 * fatSz) % U32;
    if totsec <= dataBegin then Refused
    else
      var clusters := Quot(totsec - dataBegin, spc);
      var entries := fatSz * SECTOR % U32 / 4;
      var total := if entries >= 4 && (clusters + 2) % U32 > entries then entries - 2 else clusters;
      Bound(Geometry(spc, fatSz, reserved, root, total), totsec)
  }

  /** The first sector of cluster `c`, as the driver computes it from its wrapped fields. */
  function Lba32(g: Geometry, c: nat): nat
    requires c >= 2
  {
    (g.DataBegin() % U32 + (c - 2) * g.spc) % U32
  }

  /** The entry of `c` lies in the table, and its sectors after both tables and before the end. */
  predicate Inside(g: Geometry, totsec: nat, c: nat)
    requires c >= 2
  {
    c < g.Entries() && g.DataBegin() <= Lba32(g, c) && Lba32(g, c) + g.spc <= totsec
  }

  /** What clusters alloc_clus can return. */
  predicate Allocable(g: Geometry, c: nat) { 3 <= c < FatMaxClus(g.fatSz, g.total) + 2 }

  lemma BoundFacts(bpb: Sector)
    requires Bind(bpb).Bound?
    ensures var g, totsec := Bind(bpb).g, Bind(bpb).totsec;
            && g.spc in {1, 2, 4, 8} && 1 <= g.fatBegin < 0x1_0000 && 1 <= g.fatSz < U32 && totsec < U32
            && g.DataBegin() % U32 < totsec && g.total * g.spc <= totsec - g.DataBegin() % U32
            && (g.total == Quot(totsec - g.DataBegin() % U32, g.spc) || (g.total == g.fatSz * SECTOR % U32 / 4 - 2))
  {
    hide R16, R32, Derive;
    DeriveFacts(bpb[13], R16(bpb, 14), R32(bpb, 36), R32(bpb, 44), if R32(bpb, 32) == 0 then R16(bpb, 19)
      else R32(bpb, 32));
  }

  lemma DeriveFacts(spc: nat, reserved: nat, fatSz: nat, root: nat, totsec: nat)
    requires spc in {1, 2, 4, 8} && Derive(spc, reserved, fatSz, root, totsec).Bound? && totsec < U32
    ensures var g := Derive(spc, reserved, fatSz, root, totsec).g;
            && g.spc == spc && g.fatBegin == reserved && g.fatSz == fatSz && g.rootClus == root
            && Derive(spc, reserved, fatSz, root, totsec).totsec == totsec
            && g.DataBegin() % U32 < totsec && g.total * g.spc <= totsec - g.DataBegin() % U32
            && (g.total == Quot(totsec - g.DataBegin() % U32, g.spc) || (g.total == g.fatSz * SECTOR % U32 / 4 - 2))
  {
    var clusters := Quot(totsec - (reserved + 2 * fatSz) % U32, spc);
    TotalFits(Derive(spc, reserved, fatSz, root, totsec).g.total, clusters, spc);
  }

  lemma TotalFits(total: int, clusters: int, spc: nat)
    requires total <= clusters
    ensures total * spc <= clusters * spc
  {
    assert (clusters - total) * spc >= 0;
  }

  /**
   * Every cluster alloc_clus can return lies inside the table and the data area exactly when
   * there is none, or the table end does not wrap and there are two clusters.
   */
  lemma AllocInside(bpb: Sector)
    requires Bind(bpb).Bound?
    ensures var g, totsec := Bind(bpb).g, Bind(bpb).totsec;
            (forall c :: Allocable(g, c) ==> Inside(g, totsec, c))
            <==> FatMaxClus(g.fatSz, g.total) < 2 || (g.DataBegin() < U32 && g.total >= 2)
  {
    hide Bind;
    BoundFacts(bpb);
    var g, totsec := Bind(bpb).g, Bind(bpb).totsec;
    if FatMaxClus(g.fatSz, g.total) >= 2 {
      assert Allocable(g, 3);
      if g.DataBegin() < U32 && g.total >= 2 {
        forall c | Allocable(g, c) ensures Inside(g, totsec, c) { AllocFits(g, totsec, c); }
      } else if g.DataBegin() < U32 {
        ThirdLeaves(g, totsec);
      }
    }
  }

  /**
   * With fewer than two clusters the promise fails exactly when the size of the table in bytes wraps to
   * 0: fat_max_clus then takes the table for too small and answers 2 instead of the clusters there are.
   */
  lemma TooFewInside(bpb: Sector)
    requires Bind(bpb).Bound? && Bind(bpb).g.total < 2
    ensures var g, totsec := Bind(bpb).g, Bind(bpb).totsec;
            (forall c :: Allocable(g, c) ==> Inside(g, totsec, c)) <==> g.fatSz % 0x80_0000 != 0
  {
    hide Bind, Allocable, Inside;
    AllocInside(bpb);
    TableBytes(Bind(bpb).g.fatSz);
  }

  /** 2^23 sectors are 2^32 bytes. */
  lemma TableBytes(fatSz: nat)
    ensures fatSz * SECTOR % U32 / 4 < 4 <==> fatSz % 0x80_0000 == 0
  {
    var a, b := fatSz / 0x80_0000, fatSz % 0x80_0000;
    assert fatSz * SECTOR == a * U32 + b * SECTOR;
    assert fatSz * SECTOR % U32 == b * SECTOR;
  }

  lemma AllocFits(g: Geometry, totsec: nat, c: nat)
    requires g.spc > 0 && g.DataBegin() < totsec < U32 && g.total >= 2 && g.fatSz >= 1
        && g.total * g.spc <= totsec - g.DataBegin()
    requires Allocable(g, c)
    ensures Inside(g, totsec, c)
  {
    MaxBounds(g.fatSz, g.total);
    hide FatMaxClus;
    SpcTimes(g.spc, c - 2, g.total);
    var off := (c - 2) * g.spc;
    assert off >= 0;
    NoWrap(g.DataBegin(), off);
  }

  lemma NoWrap(a: nat, b: nat)
    requires a + b < U32
    ensures (a % U32 + b) % U32 == a + b
  {
  }

  /** Wrapping the table's size in bytes only ever lowers the bound. */
  lemma MaxBounds(fatSz: nat, total: nat)
    requires fatSz >= 1 && total >= 2
    ensures FatMaxClus(fatSz, total) <= total && FatMaxClus(fatSz, total) + 2 <= fatSz * 128
  {
    var bytes := fatSz * SECTOR;
    assert bytes % U32 <= bytes;
  }

  lemma ThirdLeaves(g: Geometry, totsec: nat)
    requires g.spc in {1, 2, 4, 8} && g.DataBegin() < totsec < U32 && g.total < 2 && FatMaxClus(g.fatSz, g.total) >= 2
    requires g.total == Quot(totsec - g.DataBegin(), g.spc) || g.total == g.fatSz * SECTOR % U32 / 4 - 2
    ensures !Inside(g, totsec, 3)
  {
    assert totsec - g.DataBegin() < 2 * g.spc;
  }

  /** fat_max_clus never cuts below the clusters fat_bind counted, when the table's size in bytes fits a word. */
  lemma MaxIsTotal(g: Geometry)
    requires g.Ok()
    ensures FatMaxClus(g.fatSz, g.total) == g.total
  {
  }

  /** A boot sector without wrap-around, of fewer clusters than there are entry values, gives a sound geometry. */
  lemma BindOk(bpb: Sector)
    requires Bind(bpb).Bound?
    requires var g := Bind(bpb).g;
        g.DataBegin() < U32 && g.fatSz < 0x80_0000 && g.Limit() <= BAD && g.rootClus < g.Limit() && g.total >= 1
    ensures Bind(bpb).g.Ok() && Bind(bpb).g.DataBegin() + Bind(bpb).g.total * Bind(bpb).g.spc <= Bind(bpb).totsec
  {
    hide R32, R16;
    BoundFacts(bpb);
  }

  // ---------------------------------------------------------------- sizing

  const RESERVED: nat := 32

  /** Sectors of table that `clus` clusters take. */
  function Need(clus: nat): nat { ((clus + 2) * 4 + SECTOR - 1) % U32 / SECTOR }

  /** The partition holds the tables and `clus` clusters, and the table names them all. */
  predicate Roomy(nsec: nat, spc: nat, fatSz: nat, clus: nat) {
    && spc in {1, 2, 4, 8} && clus >= 1 && RESERVED + 2 * fatSz + clus * spc <= nsec && clus + 2 <= fatSz * 128
    && clus == Quot(nsec - RESERVED - 2 * fatSz, spc)
  }

  /** One pass of fat_geom's inner loop. */
  datatype Pass = Stop | Accept(clus: nat) | Again(fatLen: nat)

  function TryPass(nsec: nat, spc: nat, fatLen: nat): Pass
    requires spc in {1, 2, 4, 8}
  {
    if nsec <= (RESERVED + 2 * fatLen + spc) % U32 then Stop
    else
      var clus := Quot((nsec - RESERVED - 2 * fatLen) % U32, spc);
      if Need(clus) <= fatLen then Accept(clus) else Again(Need(clus))
  }

  /** Size a FAT32 for `nsec` sectors (fat.c:1374-1397). `passes` counts the passes at the size accepted. */
  method FatGeom(nsec: nat) returns (ok: bool, spc: nat, fatSz: nat, clus: nat, ghost passes: nat)
    requires nsec < U32
    ensures ok ==> Roomy(nsec, spc, fatSz, clus) && spc in {1, 2, 4, 8} && fatSz >= 32
    ensures nsec >= 4096 ==> ok && spc == 8 && passes <= 2 && fatSz < 0x80_0000 && clus >= 256
  {
    hide TryPass, Roomy;
    var spcs := [8, 4, 2, 1];
    var i := 0;
    ok, spc, fatSz, clus, passes := false, 0, 0, 0, 0;
    while i < 4
      invariant 0 <= i <= 4 && (i > 0 ==> nsec < 4096)
    {
      var trySpc := spcs[i];
      var fatLen := 32;
      var iter := 0;
      var stop := false;
      if nsec >= 4096 { BigPasses(nsec); }
      while iter < 12 && !stop
        invariant 0 <= iter <= 12 && 32 <= fatLen < 0x80_0000 && (nsec < 4096 ==> fatLen <= 64)
        invariant nsec >= 4096 ==> !stop && iter <= 1
        invariant nsec >= 4096 && iter == 0 ==> fatLen == 32
        invariant nsec >= 4096 && iter == 1 ==> TryPass(nsec, 8, 32) == Again(fatLen)
        decreases 12 - iter, !stop
      {
        PassBounds(nsec, trySpc, fatLen);
        match TryPass(nsec, trySpc, fatLen) {
          case Stop => stop := true;
          case Accept(c) =>
            return true, trySpc, fatLen, c, iter + 1;
          case Again(len) => fatLen := len;
        }
        iter := iter + 1;
      }
      i := i + 1;
    }
  }

  lemma NeedIs(clus: nat)
    requires clus <= 0x2000_0000
    ensures Need(clus) == (clus * 4 + 519) / 512
  {
  }

  /** A pass whose words do not wrap. */
  lemma PassIs(nsec: nat, spc: nat, fatLen: nat)
    requires nsec < U32 && spc in {1, 2, 4, 8} && fatLen < 0x80_0000
    ensures TryPass(nsec, spc, fatLen) ==
              if nsec <= RESERVED + 2 * fatLen + spc then Stop
              else
                var clus := Quot(nsec - RESERVED - 2 * fatLen, spc);
                if Need(clus) <= fatLen then Accept(clus) else Again(Need(clus))
  {
    hide Need, Quot;
  }

  /** A partition of 4096 sectors or more is accepted at eight sectors a cluster by the second pass. */
  lemma BigPasses(nsec: nat)
    requires 4096 <= nsec < U32
    ensures !TryPass(nsec, 8, 32).Stop?
    ensures TryPass(nsec, 8, 32).Accept? ==> TryPass(nsec, 8, 32).clus >= 256
    ensures TryPass(nsec, 8, 32).Again? ==>
              var r := TryPass(nsec, 8, TryPass(nsec, 8, 32).fatLen); r.Accept? && r.clus >= 256
  {
    hide TryPass, Need;
    PassIs(nsec, 8, 32);
    NeedIs((nsec - 96) / 8);
    var len := Need((nsec - 96) / 8);
    if len > 32 {
      PassIs(nsec, 8, len);
      NeedIs((nsec - RESERVED - 2 * len) / 8);
    }
  }

  lemma PassBounds(nsec: nat, spc: nat, fatLen: nat)
    requires nsec < U32 && spc in {1, 2, 4, 8} && 32 <= fatLen < 0x80_0000 && (nsec < 4096 ==> fatLen <= 64)
    requires spc == 8 || nsec < 4096
    ensures match TryPass(nsec, spc, fatLen)
            case Accept(c) => Roomy(nsec, spc, fatLen, c)
            case Again(len) => 32 <= len < 0x80_0000 && (nsec < 4096 ==> len <= 64)
            case Stop => true
  {
    hide TryPass, Need, Quot;
    PassIs(nsec, spc, fatLen);
    if nsec > RESERVED + 2 * fatLen + spc {
      QuotBounds(nsec - RESERVED - 2 * fatLen, spc);
      NeedIs(Quot(nsec - RESERVED - 2 * fatLen, spc));
    }
  }

  lemma QuotBounds(a: nat, spc: nat)
    requires spc in {1, 2, 4, 8} && spc < a
    ensures 1 <= Quot(a, spc) <= a && (spc == 8 ==> Quot(a, spc) <= a / 8)
  {
  }

  // ---------------------------------------------------------------- the image builder's search

  const MIN_FAT32: nat := 65525

  /** The pair fits: data sectors are left, and the table names every cluster (tools/make_fat.py:122-129). */
  predicate Fitting(part: nat, spc: nat, fatSz: nat)
    requires spc in {1, 2, 4, 8}
  {
    part > RESERVED + 2 * fatSz + spc && (Quot(part - RESERVED - 2 * fatSz, spc) + 2) * 4 <= fatSz * SECTOR
  }

  /** A table size that fits, if any size up to 65535 does. */
  function Witness(part: nat, spc: nat): nat
    requires spc in {1, 2, 4, 8} && part >= RESERVED
  {
    (part - RESERVED) / (128 * spc + 2) + 2
  }

  lemma WitnessFits(part: nat, spc: nat)
    requires spc in {1, 2, 4, 8} && part >= 14336
    ensures Fitting(part, spc, Witness(part, spc))
  {
    var d := part - RESERVED;
    if spc == 8 { assert d / 1026 * 1026 <= d < d / 1026 * 1026 + 1026; }
    else if spc == 4 { assert d / 514 * 514 <= d < d / 514 * 514 + 514; }
    else if spc == 2 { assert d / 258 * 258 <= d < d / 258 * 258 + 258; }
    else { assert d / 130 * 130 <= d < d / 130 * 130 + 130; }
  }

  /** More table never stops a pair from fitting, as long as sectors are left. */
  lemma FittingGrows(part: nat, spc: nat, fatSz: nat, more: nat)
    requires spc in {1, 2, 4, 8} && Fitting(part, spc, fatSz) && fatSz <= more && part > RESERVED + 2 * more + spc
    ensures Fitting(part, spc, more)
  {
    QuotGrows(part - RESERVED - 2 * more, part - RESERVED - 2 * fatSz, spc);
  }

  lemma QuotGrows(a: nat, b: nat, spc: nat)
    requires spc in {1, 2, 4, 8} && a <= b
    ensures Quot(a, spc) <= Quot(b, spc)
  {
  }

  /** The smallest table that fits, or 0 for none below 65536 (tools/make_fat.py:121-136). */
  method SmallestTable(part: nat, spc: nat) returns (fatSz: nat)
    requires spc in {1, 2, 4, 8}
    ensures fatSz == 0 || 32 <= fatSz < 65536
    ensures fatSz != 0 ==> Fitting(part, spc, fatSz) && forall f :: 32 <= f < fatSz ==> !Fitting(part, spc, f)
    ensures fatSz == 0 ==> forall f :: 32 <= f < 65536 ==> !Fitting(part, spc, f)
  {
    hide Quot;
    fatSz := 32;
    while fatSz < 65536
      invariant 32 <= fatSz <= 65536 && forall f :: 32 <= f < fatSz ==> !Fitting(part, spc, f)
    {
      if part > RESERVED + 2 * fatSz + spc {
        var clusters := Quot(part - RESERVED - 2 * fatSz, spc);
        var need := ((clusters + 2) * 4 + SECTOR - 1) / SECTOR;
        if fatSz >= need {
          return;
        }
      }
      fatSz := fatSz + 1;
    }
    fatSz := 0;
  }

  /**
   * FatImage._init_geometry (tools/make_fat.py:114-138): what it accepts fits, has the smallest
   * such table, and is FAT32 by cluster count or already at 512-byte clusters. From 8 MiB to
   * 32 GiB it always accepts.
   */
  method ImageGeom(part: nat) returns (ok: bool, spc: nat, fatSz: nat, clusters: nat)
    ensures ok ==> spc in {1, 2, 4, 8} && Roomy(part, spc, fatSz, clusters) && (clusters >= MIN_FAT32 || spc == 1)
    ensures ok ==> 32 <= fatSz < 65536 && forall f :: 32 <= f < fatSz ==> !Fitting(part, spc, f)
    ensures 14336 <= part <= 0x400_0000 ==> ok
  {
    hide Quot, Fitting, Roomy, Witness;
    var choices := [8, 4, 2, 1];
    var i := 0;
    ok, spc, fatSz, clusters := false, 0, 0, 0;
    while i < 4
      invariant 0 <= i <= 4 && (14336 <= part <= 0x400_0000 ==> i < 4)
          && (i > 0 && 14336 <= part <= 0x400_0000 ==> part < 0x10_0000)
    {
      spc := choices[i];
      fatSz := SmallestTable(part, spc);
      if 14336 <= part <= 0x400_0000 {
        WitnessFits(part, spc);
        WitnessBound(part, spc);
        SmallWitness(part, spc, fatSz);
      }
      if fatSz != 0 {
        FittingRoomy(part, spc, fatSz);
        clusters := Quot(part - RESERVED - 2 * fatSz, spc);
        if clusters >= MIN_FAT32 || spc == 1 {
          return true, spc, fatSz, clusters;
        }
        FewClusters(part, spc, fatSz);
      }
      i := i + 1;
    }
  }

  lemma WitnessBound(part: nat, spc: nat)
    requires spc in {1, 2, 4, 8} && 14336 <= part && ((part <= 0x400_0000 && spc == 8) || part < 0x10_0000)
    ensures 2 <= Witness(part, spc) < 65536
    ensures part > RESERVED + 2 * 32 + spc
  {
    if spc == 8 {} else if spc == 4 {} else if spc == 2 {} else {}
  }

  /** If a size fits, so does the smallest one, which the search finds. */
  lemma SmallWitness(part: nat, spc: nat, fatSz: nat)
    requires spc in {1, 2, 4, 8} && part > RESERVED + 2 * 32 + spc
    requires Fitting(part, spc, Witness(part, spc)) && Witness(part, spc) < 65536
    requires fatSz == 0 ==> forall f :: 32 <= f < 65536 ==> !Fitting(part, spc, f)
    ensures fatSz != 0
  {
    hide Fitting, Witness;
    if Witness(part, spc) < 32 { FittingGrows(part, spc, Witness(part, spc), 32); }
  }

  lemma FittingRoomy(part: nat, spc: nat, fatSz: nat)
    requires spc in {1, 2, 4, 8} && Fitting(part, spc, fatSz)
    ensures RESERVED + 2 * fatSz <= part && Roomy(part, spc, fatSz, Quot(part - RESERVED - 2 * fatSz, spc))
  {
  }

  /** A partition with too few clusters of more than one sector is small. */
  lemma FewClusters(part: nat, spc: nat, fatSz: nat)
    requires spc in {2, 4, 8} && RESERVED + 2 * fatSz <= part && fatSz < 65536
        && Quot(part - RESERVED - 2 * fatSz, spc) < MIN_FAT32
    ensures part < 0x10_0000
  {
  }
}
