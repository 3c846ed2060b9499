/**
 * Physical memory: one bump pool shared by three allocators, and the page-table mapper
 * that draws its tables from it (kernel/src/phys.c). size_t and addresses are 64-bit words,
 * and where their arithmetic can wrap, so does this.
 */
module Physical {
  import opened Options
  import opened PageTables

  const U64: nat := 0x1_0000_0000_0000_0000
  const GIB4: nat := 0x1_0000_0000
  const WANT: nat := 0x40_0000
  const ISA_TOP: nat := 0x100_0000
  /** No allocator pushes the fill of the pool past this. */
  const TOP: nat := 0x200_0000

  /** align128 (phys.c:13-16). */
  function Align128(n: nat): nat { (n + 127) % U64 / 128 * 128 }
  /** align4k (phys.c:81-84). */
  function Align4K(n: nat): nat { (n + 4095) % U64 / 4096 * 4096 }

  /** A block handed out: physical address and length. */
  datatype Block = Block(base: nat, len: nat)

  predicate Apart(a: Block, b: Block) { a.base + a.len <= b.base || b.base + b.len <= a.base }

  /** Blocks do not meet, and all lie below `top`, at or above `bottom`. */
  ghost predicate Laid(blocks: seq<Block>, bottom: nat, top: nat) {
    && (forall i :: 0 <= i < |blocks| ==> bottom <= blocks[i].base && blocks[i].base + blocks[i].len <= top)
    && forall i, j :: 0 <= i < j < |blocks| ==> Apart(blocks[i], blocks[j])
  }

  lemma LaidMore(blocks: seq<Block>, bottom: nat, top: nat, b: Block)
    requires Laid(blocks, bottom, top) && bottom <= b.base && top <= b.base
    ensures Laid(blocks + [b], bottom, b.base + b.len)
  {
    var all := blocks + [b];
    forall i, j | 0 <= i < j < |all| ensures Apart(all[i], all[j]) {}
  }

  /** A region of the boot loader's memory map. */
  datatype Region = Region(base: nat, length: nat, usable: bool)

  /** The 24-bit limit of the ISA controller, and its 64 KiB pages (phys.c:193-216). */
  predicate IsaOk(b: Block) { b.base + b.len <= ISA_TOP && b.base / 0x1_0000 == (b.base + b.len - 1) / 0x1_0000 }

  class Phys {
    const mem: array<nat>
    const hhdm: nat
    var present: bool
    var poolPhys: nat
    var poolSize: nat
    var poolUsed: nat
    ghost var blocks: seq<Block>

    /** The fill passes the pool's end by alignment only, and only where the ISA limit lets it. */
    ghost predicate FillOk()
      reads this
    {
      && poolSize == (if present then WANT else 0)
      && poolUsed <= TOP && (poolPhys >= ISA_TOP ==> poolUsed <= poolSize)
      && poolPhys % 128 == 0 && poolPhys + poolSize <= GIB4
    }

    /** The pool lies in memory and below 4 GiB, and the blocks handed out lie in the used part. */
    ghost predicate PoolOk()
      reads this
    {
      && FillOk()
      && (present ==> poolPhys + poolSize <= mem.Length * 8)
      && Laid(blocks, poolPhys, poolPhys + poolUsed)
      && forall i :: 0 <= i < |blocks| ==> blocks[i].base + blocks[i].len <= poolPhys + poolSize
    }

    /** `b` is the newest block; it is in the pool, and the earlier ones are still there. */
    twostate predicate Granted(b: Block)
      reads this
    {
      && blocks == old(blocks) + [b] && b.base + b.len <= poolPhys + poolSize && b.base >= poolPhys + old(poolUsed)
      && poolUsed == b.base + b.len - poolPhys
    }

    constructor (mem: array<nat>, hhdm: nat, regions: seq<Region>)
      requires mem.Length * 8 < U64 - 128
      requires forall i :: 0 <= i < |regions| && regions[i].usable ==>
          regions[i].base + regions[i].length <= mem.Length * 8
      ensures PoolOk() && this.mem == mem && this.hhdm == hhdm && blocks == [] && poolUsed == 0
      ensures present ==>
          poolSize == WANT && exists i :: 0 <= i < |regions| && regions[i].usable && regions[i].base <= poolPhys
                                                          && poolPhys + poolSize <= regions[i].base + regions[i].length
    {
      this.mem, this.hhdm := mem, hhdm;
      present, poolPhys, poolSize, poolUsed, blocks := false, 0, 0, 0, [];
      var i := 0;
      new;
      while i < |regions|
        invariant 0 <= i <= |regions| && !present && poolPhys == 0 == poolSize && poolUsed == 0 && blocks == []
            && PoolOk()
      {
        var e := regions[i];
        var base := (e.base + 127) % U64 / 128 * 128;
        var end := (e.base + e.length) % U64;
        if e.usable && base < end && base < GIB4 {
          var cap := end - base;
          if base + cap > GIB4 {
            cap := GIB4 - base;
          }
          if cap >= WANT {
            present, poolPhys, poolSize := true, base, WANT;
            return;
          }
        }
        i := i + 1;
      }
    }

    /**
     * phys_alloc (phys.c:174-189): the block, or none. The fill grows by at least what was asked
     * exactly when its sum with the request does not wrap; then the block is disjoint from all
     * before it.
     */
    method Alloc(bytes: nat) returns (ok: bool, phys: nat)
      requires bytes < U64 && FillOk()
      modifies this`poolUsed, this`blocks
      ensures FillOk()
      ensures ok <==> present && (old(poolUsed) + Align128(bytes)) % U64 <= poolSize
      ensures ok ==> phys == poolPhys + old(poolUsed) && poolUsed == (old(poolUsed) + Align128(bytes)) % U64 <= TOP
      ensures !ok ==> poolUsed == old(poolUsed) && blocks == old(blocks)
      ensures ok ==> (poolUsed >= old(poolUsed) + bytes <==> bytes + 127 + old(poolUsed) < U64)
      ensures old(PoolOk()) && bytes + 127 + old(poolUsed) < U64 ==>
                PoolOk() && (ok ==> Granted(Block(phys, Align128(bytes))) && bytes <= Align128(bytes))
    {
      hide Laid, Apart, Align128;
      AlignUp(if bytes + 127 < U64 then bytes else 0);
      var n := Align128(bytes);
      if present && (poolUsed + n) % U64 <= poolSize { AlignWraps(bytes, poolUsed, poolSize); }
      ok, phys := false, 0;
      if !present || (poolUsed + n) % U64 > poolSize {
        return;
      }
      phys := poolPhys + poolUsed;
      if PoolOk() { LaidMore(blocks, poolPhys, poolPhys + poolUsed, Block(phys, n)); }
      blocks := blocks + [Block(phys, n)];
      poolUsed := (poolUsed + n) % U64;
      ok := true;
    }

    static lemma AlignWraps(bytes: nat, used: nat, size: nat)
      requires bytes < U64 && used <= TOP && size <= WANT && (used + Align128(bytes)) % U64 <= size
      ensures (used + Align128(bytes)) % U64 >= used + bytes <==> bytes + 127 + used < U64
    {
    }

    /**
     * A request that wraps: after a block of 128 bytes it is granted, takes the fill back, and the
     * next block is the first one again.
     */
    method SameBlockTwice() returns (first: nat, second: nat)
      requires PoolOk() && present && poolUsed % 128 == 0 && poolUsed + 128 <= poolSize
      modifies this`poolUsed, this`blocks
      ensures first == second == poolPhys + old(poolUsed) && poolUsed == old(poolUsed) + 128
    {
      hide Laid, Apart;
      var a, b, c;
      a, first := Alloc(128);
      var lost;
      b, lost := Alloc(U64 - 128);
      c, second := Alloc(128);
    }

    /** The 32-bit physical address at offset `u` of the pool. */
    static function Spot(at: nat, u: nat): nat { (at + u) % GIB4 }

    /** The request ends in the pool and below 16 MiB, in the words of the code (phys.c:202-214). */
    static predicate Reaches(at: nat, size: nat, u: nat, n: nat) {
      (u + n) % U64 <= size && Spot(at, u) < ISA_TOP && (Spot(at, u) + n) % GIB4 <= ISA_TOP
    }

    static predicate InPage(at: nat, u: nat, n: nat)
      requires n > 0
    {
      Spot(at, u) / 0x1_0000 == (Spot(at, u) + n - 1) % GIB4 / 0x1_0000
    }

    /** The offset of the next 64 KiB boundary. */
    static function Skipped(at: nat, u: nat): nat { ((Spot(at, u) + 0x1_0000) / 0x1_0000 * 0x1_0000 - at) % GIB4 }

    /** `n` bytes are granted at offset `u`, or else at the boundary behind it. */
    static predicate IsaFits(at: nat, size: nat, u: nat, n: nat)
      requires n > 0
    {
      && Reaches(at, size, u, n)
      && (InPage(at, u, n) || (Reaches(at, size, Skipped(at, u), n) && InPage(at, Skipped(at, u), n)))
    }

    /** The length asked of the ISA allocator, rounded up. */
    static function IsaLength(bytes: nat): nat { if Align128(bytes) == 0 then 128 else Align128(bytes) }

    /**
     * phys_alloc_isa (phys.c:191-228): a block below 16 MiB inside one 64 KiB page. It is granted
     * exactly when it fits at the fill or at the next boundary: the loop that skips to the next page
     * ends, and never succeeds later.
     */
    method AllocIsa(bytes: nat) returns (ok: bool, phys: nat)
      requires FillOk() && bytes < U64
      modifies this`poolUsed, this`blocks
      ensures ok <==> present && IsaFits(poolPhys, poolSize, Align128(old(poolUsed)), IsaLength(bytes))
      ensures !ok ==> blocks == old(blocks) && poolUsed >= old(poolUsed) && (old(PoolOk()) ==> PoolOk())
      ensures ok && old(PoolOk()) && bytes + 127 + TOP < U64 ==>
                && PoolOk() && Granted(Block(phys, IsaLength(bytes))) && IsaOk(Block(phys, IsaLength(bytes)))
                && bytes <= IsaLength(bytes)
    {
      hide Laid, Apart, Align128, IsaOk, Reaches, InPage, Skipped, Spot;
      IsaLengthIs(bytes);
      AlignUp(poolUsed);
      var n := Align128(bytes);
      if n == 0 {
        n := 128;
      }
      ok, phys := false, 0;
      ghost var u, turn := Align128(poolUsed), 0;
      var more := true;
      while more
        invariant FillOk() && (more ==> !ok) && unchanged(`present) && unchanged(`poolPhys) && unchanged(`poolSize)
        invariant !ok ==> poolUsed >= old(poolUsed) && blocks == old(blocks) && (old(PoolOk()) ==> PoolOk())
        invariant ok && old(PoolOk()) && bytes + 127 + TOP < U64 ==>
                    PoolOk() && Granted(Block(phys, n)) && IsaOk(Block(phys, n))
        invariant more ==> Searching(poolPhys, poolSize, u, n, turn, poolUsed) && (turn > 0 ==> present)
        invariant !more ==> (ok <==> present && IsaFits(poolPhys, poolSize, u, n))
        decreases more, TOP - poolUsed
      {
        Search(poolPhys, poolSize, u, n, turn, poolUsed);
        more, ok, phys := TryIsa(n);
        turn := turn + 1;
      }
    }

    /**
     * The loop's state before turn `turn`: at the fill, at the boundary behind it, or at one where the
     * request cannot lie in a page.
     */
    static ghost predicate Searching(at: nat, size: nat, u: nat, n: nat, turn: nat, used: nat)
      requires n > 0
    {
      if turn == 0 then Align128(used) == u
      else
        && Align128(used) == used && Spot(at, used) % 0x1_0000 == 0
        && Reaches(at, size, u, n) && !InPage(at, u, n)
        && (if turn == 1 then used == Skipped(at, u) else !IsaFits(at, size, u, n) && (n - 1) % GIB4 >= 0x1_0000)
    }

    /** What a turn of the loop finds, and where the next one stands. */
    static lemma Search(at: nat, size: nat, u: nat, n: nat, turn: nat, used: nat)
      requires n > 0 && at % 128 == 0 && at <= GIB4 && used <= TOP && Searching(at, size, u, n, turn, used)
      requires at >= ISA_TOP ==> used <= size
      ensures var v := Align128(used);
              && (Reaches(at, size, v, n) && InPage(at, v, n) ==> IsaFits(at, size, u, n))
              && (!Reaches(at, size, v, n) ==> !IsaFits(at, size, u, n))
              && (Reaches(at, size, v, n) && !InPage(at, v, n) ==> Searching(at, size, u, n, turn + 1, Skipped(at, v)))
    {
      hide Reaches, Align128, InPage, Skipped, Spot;
      var v := Align128(used);
      if Reaches(at, size, v, n) && !InPage(at, v, n) {
        SpotLow(at, size, v, n);
        Boundary(at, v);
        if turn > 0 { AtBoundary(at, v, n); }
      }
      if turn > 1 { AtBoundary(at, v, n); }
    }

    static lemma SpotLow(at: nat, size: nat, u: nat, n: nat)
      requires Reaches(at, size, u, n)
      ensures Spot(at, u) < ISA_TOP
    {
    }

    /** Where a page begins, whether a request lies in one depends on its length alone. */
    static lemma AtBoundary(at: nat, u: nat, n: nat)
      requires n > 0 && Spot(at, u) % 0x1_0000 == 0
      ensures InPage(at, u, n) <==> (n - 1) % GIB4 < 0x1_0000
    {
      var p, k := Spot(at, u), (n - 1) % GIB4;
      assert (p + n - 1) % GIB4 == (p + k) % GIB4;
    }

    static lemma Boundary(at: nat, u: nat)
      requires at % 128 == 0 && at <= GIB4 && Spot(at, u) < ISA_TOP
      ensures var v := Skipped(at, u); Align128(v) == v && Spot(at, v) % 0x1_0000 == 0
    {
      var b := (Spot(at, u) + 0x1_0000) / 0x1_0000 * 0x1_0000;
      assert b % 0x1_0000 == 0 && b <= ISA_TOP;
      assert Spot(at, Skipped(at, u)) == b;
    }

    static lemma IsaLengthIs(bytes: nat)
      requires bytes < U64
      ensures 128 <= IsaLength(bytes) < U64
      ensures bytes + 127 + TOP < U64 ==> bytes <= IsaLength(bytes) < U64 - TOP
    {
    }

    /**
     * In plain numbers: a request that the fill does not carry past 2^64 is granted exactly when the
     * pool has room below 16 MiB at the fill and the block lies in one page there, or, for at most
     * 64 KiB, when there is room at the next boundary.
     */
    static lemma IsaPlain(at: nat, u: nat, n: nat)
      requires at % 128 == 0 && at + WANT <= GIB4 && u <= TOP && u % 128 == 0 && 128 <= n && u + n < U64
      requires at >= ISA_TOP ==> u <= WANT
      ensures IsaFits(at, WANT, u, n) <==>
              && u + n <= WANT && at + u + n <= ISA_TOP
              && ((at + u) / 0x1_0000 == (at + u + n - 1) / 0x1_0000
                  || (n <= 0x1_0000 && var next := (at + u) / 0x1_0000 * 0x1_0000 + 0x1_0000;
                                       next - at + n <= WANT && next + n <= ISA_TOP))
    {
      hide Reaches, InPage, Skipped;
      ReachesPlain(at, u, n);
      if Reaches(at, WANT, u, n) {
        TryFacts(at, u, n);
        InPagePlain(at, u, n);
        var p, v := at + u, Skipped(at, u);
        SkippedPlain(at, u);
        if !InPage(at, u, n) {
          ReachesPlain(at, v, n);
          if Reaches(at, WANT, v, n) {
            TryFacts(at, v, n);
            InPagePlain(at, v, n);
          }
        }
      }
    }

    static lemma ReachesPlain(at: nat, u: nat, n: nat)
      requires at % 128 == 0 && at + WANT <= GIB4 && u <= TOP && u % 128 == 0 && 128 <= n && u + n < U64
      requires at >= ISA_TOP ==> u <= WANT
      ensures Reaches(at, WANT, u, n) <==> u + n <= WANT && at + u + n <= ISA_TOP
    {
      if u + n <= WANT {
        assert (u + n) % U64 == u + n && at + u < GIB4;
        assert Spot(at, u) == at + u;
      }
    }

    static lemma InPagePlain(at: nat, u: nat, n: nat)
      requires 0 < n && at + u + n <= ISA_TOP
      ensures InPage(at, u, n) <==> (at + u) / 0x1_0000 == (at + u + n - 1) / 0x1_0000
    {
    }

    static lemma SkippedPlain(at: nat, u: nat)
      requires at + u < ISA_TOP
      ensures at + Skipped(at, u) == (at + u) / 0x1_0000 * 0x1_0000 + 0x1_0000
    {
    }

    /** Where a request reaches, the 32-bit sums do not wrap, and neither does the skip. */
    static lemma TryFacts(at: nat, u: nat, n: nat)
      requires at % 128 == 0 && at + WANT <= GIB4 && u <= TOP && 128 <= n < U64 && (at >= ISA_TOP ==> u <= WANT)
      requires Reaches(at, WANT, u, n)
      ensures at < ISA_TOP && Spot(at, u) == at + u < ISA_TOP
      ensures u < Skipped(at, u) <= ISA_TOP
      ensures n < U64 - TOP ==> u + n <= WANT && at + u + n <= ISA_TOP && (at + u + n - 1) % GIB4 == at + u + n - 1
    {
      assert Spot(at, u) == at + u;
    }

    /** One turn of the loop: grant a block, give up, or skip to the next 64 KiB boundary (phys.c:198-227). */
    method TryIsa(n: nat) returns (more: bool, ok: bool, phys: nat)
      requires FillOk() && 128 <= n < U64
      modifies this`poolUsed, this`blocks
      ensures FillOk()
      ensures var u := Align128(old(poolUsed));
              && (ok <==> present && Reaches(poolPhys, poolSize, u, n) && InPage(poolPhys, u, n))
              && (more <==> present && Reaches(poolPhys, poolSize, u, n) && !InPage(poolPhys, u, n))
              && (more ==> poolUsed == Skipped(poolPhys, u) > old(poolUsed))
      ensures !ok ==> blocks == old(blocks) && poolUsed >= old(poolUsed) && (old(PoolOk()) ==> PoolOk())
      ensures ok && old(PoolOk()) && n < U64 - TOP ==> PoolOk() && Granted(Block(phys, n)) && IsaOk(Block(phys, n))
    {
      hide Align128, IsaOk, PoolOk;
      more, ok, phys := false, false, 0;
      AlignUp(poolUsed);
      Raise(Align128(poolUsed));
      if !present || (poolUsed + n) % U64 > poolSize {
        return;
      }
      var p := (poolPhys + poolUsed) % GIB4;
      if p >= ISA_TOP || (p + n) % GIB4 > ISA_TOP {
        return;
      }
      if p / 0x1_0000 == (p + n - 1) % GIB4 / 0x1_0000 {
        Take(n, p);
        return false, true, p;
      }
      TryFacts(poolPhys, poolUsed, n);
      Raise(((p + 0x1_0000) / 0x1_0000 * 0x1_0000 - poolPhys) % GIB4);
      more := true;
    }

    /** The fill is moved up. */
    method Raise(to: nat)
      requires FillOk() && poolUsed <= to <= TOP && (poolPhys >= ISA_TOP ==> to <= poolSize)
      modifies this`poolUsed
      ensures FillOk() && poolUsed == to && (old(PoolOk()) ==> PoolOk())
    {
      hide Laid;
      if PoolOk() { LaidHigher(blocks, poolPhys, poolPhys + poolUsed, poolPhys + to); }
      poolUsed := to;
    }

    /** The block at the fill is handed out (phys.c:216-224). */
    method Take(n: nat, p: nat)
      requires FillOk() && present && 128 <= n < U64 && p == Spot(poolPhys, poolUsed)
      requires Reaches(poolPhys, poolSize, poolUsed, n) && InPage(poolPhys, poolUsed, n)
      modifies this`poolUsed, this`blocks
      ensures FillOk()
      ensures old(PoolOk()) && n < U64 - TOP ==> PoolOk() && Granted(Block(p, n)) && IsaOk(Block(p, n))
    {
      hide Laid, IsaOk;
      TryFacts(poolPhys, poolUsed, n);
      if PoolOk() && n < U64 - TOP {
        FitsIsa(Block(p, n));
        LaidMore(blocks, poolPhys, poolPhys + poolUsed, Block(p, n));
      }
      blocks := blocks + [Block(p, n)];
      poolUsed := (poolUsed + n) % U64;
    }

    static lemma AlignUp(n: nat)
      requires n + 127 < U64
      ensures n <= Align128(n) < n + 128 && (n == 0 ==> Align128(n) == 0) && (n > 0 ==> Align128(n) >= 128)
          && (n <= TOP ==> Align128(n) <= TOP) && (n <= WANT ==> Align128(n) <= WANT)
    {
    }

    static lemma FitsIsa(b: Block)
      requires b.base + b.len <= ISA_TOP && b.base / 0x1_0000 == (b.base + b.len - 1) / 0x1_0000
      ensures IsaOk(b)
    {
    }

    static lemma LaidHigher(blocks: seq<Block>, bottom: nat, top: nat, top': nat)
      requires Laid(blocks, bottom, top) && top <= top'
      ensures Laid(blocks, bottom, top')
    {
    }

    // -------------------------------------------------------------- page tables

    /**
     * The tables under `root` form a tree, and none lies where the pool has not been handed out.
     * The pool starts at a page boundary: alloc_pt_phys aligns the offset, not the address.
     */
    ghost predicate Paged(root: nat)
      reads this, mem
    {
      && PoolOk() && poolPhys % 4096 == 0 && poolPhys > 0 && TreeShaped(mem[..], root)
      && (present ==> FreshFrames(mem[..], root, poolPhys + poolUsed, poolPhys + poolSize))
    }

    /** Frames wholly inside [lo, hi) hold no table. */
    static ghost predicate FreshFrames(m: Mem, root: nat, lo: nat, hi: nat) {
      forall n: nat :: lo <= n * 4096 && n * 4096 + 4096 <= hi ==> Unused(m, root, n)
    }

    /** How many more page tables the pool can give. */
    ghost function PagesLeft(): nat
      reads this
    {
      if present && Align4K(poolUsed) + 4096 <= poolSize then (poolSize - Align4K(poolUsed)) / 4096 else 0
    }

    /** A zeroed page for a table; 0 when the pool is used up (phys.c:87-97). */
    method AllocPt() returns (phys: nat, ghost frame: nat)
      requires PoolOk() && poolPhys % 4096 == 0 && poolPhys > 0
      modifies this`poolUsed, this`blocks, mem
      ensures PoolOk() && poolUsed >= old(poolUsed)
      ensures phys == 0 <==> old(PagesLeft()) == 0
      ensures PagesLeft() == if phys == 0 then 0 else old(PagesLeft()) - 1
      ensures phys == 0 ==> mem[..] == old(mem[..]) && blocks == old(blocks)
      ensures phys != 0 ==>
          present && phys == frame * 4096 && Granted(Block(phys, 4096)) && Zeroed(old(mem[..]), mem[..], frame)
    {
      hide Laid, Apart, Zeroed, Align4K;
      AlignPage(poolUsed);
      LaidHigher(blocks, poolPhys, poolPhys + poolUsed, poolPhys + Align4K(poolUsed));
      poolUsed := Align4K(poolUsed);
      AlignTwice(poolUsed);
      if !present || poolUsed + 4096 > poolSize {
        return 0, 0;
      }
      PageTaken(poolUsed);
      NextFrame(poolPhys, poolUsed);
      phys := poolPhys + poolUsed;
      frame := phys / 4096;
      ZeroPage(phys / 4096);
      LaidMore(blocks, poolPhys, poolPhys + poolUsed, Block(phys, 4096));
      blocks := blocks + [Block(phys, 4096)];
      poolUsed := poolUsed + 4096;
    }

    /** Frame `n` is zeroed, and nothing else changes. */
    static ghost predicate Zeroed(m: Mem, m': Mem, n: nat) {
      && |m'| == |m| && n * 512 + 512 <= |m|
      && forall w :: 0 <= w < |m| ==> m'[w] == if n * 512 <= w < n * 512 + 512 then 0 else m[w]
    }

    method ZeroPage(n: nat)
      requires n * 512 + 512 <= mem.Length
      modifies mem
      ensures Zeroed(old(mem[..]), mem[..], n)
    {
      forall w | n * 512 <= w < n * 512 + 512 { mem[w] := 0; }
    }

    static lemma AlignPage(n: nat)
      requires n <= TOP
      ensures n <= Align4K(n) <= TOP && Align4K(n) % 4096 == 0 && (n <= WANT ==> Align4K(n) <= WANT)
          && (n == 0 ==> Align4K(n) == 0)
    {
    }

    static lemma AlignTwice(n: nat)
      requires n <= TOP && n % 4096 == 0
      ensures Align4K(n) == n
    {
    }

    static lemma NextFrame(at: nat, n: nat)
      requires at % 4096 == 0 && n % 4096 == 0
      ensures (at + n) / 4096 * 4096 == at + n
    {
    }

    static lemma PageTaken(n: nat)
      requires n % 4096 == 0 && n + 4096 <= WANT
      ensures Align4K(n + 4096) == n + 4096 && (WANT - (n + 4096)) / 4096 == (WANT - n) / 4096 - 1
    {
    }

    /** What linking a zeroed frame into entry `i` of the table in frame `f` amounts to. */
    static lemma LinkIs(m: Mem, m1: Mem, root: nat, p: Path, f: nat, i: nat, n: nat)
      requires Zeroed(m, m1, n) && |p| < 3 && i < 512 && Table(m, root, p) == Some(f) && f != n
          && f * 512 + 512 <= |m| == |m1| && n < 0x10_0000
      ensures f * 512 + i < |m1| && Linked(m, m1[f * 512 + i := n * 4096 + 3], root, p, i, n)
    {
      hide Table, Zeroed, Next, Word;
      var e: nat := n * 4096 + 3;
      var m' := m1[f * 512 + i := e];
      EntryBits(n, |p| + 1);
      SameSize(m, m1, n);
      forall g: nat, j: nat | j < 512
        ensures Word(m', g, j) == if g == f && j == i then e else if g == n then 0 else Word(m, g, j) {
        ZeroWord(m, m1, n, g, j);
        SetWord(m1, f, i, e, g, j);
      }
    }

    static lemma ZeroWord(m: Mem, m1: Mem, n: nat, g: nat, j: nat)
      requires Zeroed(m, m1, n) && j < 512
      ensures Word(m1, g, j) == if g == n then 0 else Word(m, g, j)
    {
      if g < n { assert g * 512 + 512 <= n * 512; } else if g > n { assert n * 512 + 512 <= g * 512; }
    }

    /** An entry made of a frame number, present and writable. */
    static lemma EntryBits(n: nat, depth: nat)
      requires n < 0x10_0000
      ensures Next(n * 4096 + 3, depth) == Some(n)
    {
      hide FrameOf, Large, Present;
      FrameBits(n, 3);
      LowBits(n);
    }

    static lemma FrameBits(n: nat, flags: nat)
      requires n < 0x100_0000_0000 && flags < 4096
      ensures FrameOf(n * 4096 + flags) == n
    {
      Div4096(n, flags);
    }

    static lemma LowBits(n: nat)
      ensures Present(n * 4096 + 3) && !Large(n * 4096 + 3)
    {
      Div128(n);
      Odd(n);
      assert n * 32 % 2 == 0;
    }

    static lemma Odd(n: nat)
      ensures (n * 4096 + 3) % 2 == 1
    {
    }

    static lemma Div4096(n: nat, flags: nat)
      requires flags < 4096
      ensures (n * 4096 + flags) / 4096 == n
    {
    }

    static lemma Div128(n: nat)
      ensures (n * 4096 + 3) / 128 == n * 32
    {
    }

    /** The frames the pool has left stay unused when one of them becomes a table. */
    static lemma FreshLeft(m: Mem, m': Mem, root: nat, p: Path, i: nat, n: nat, lo: nat, hi: nat)
      requires TreeShaped(m, root) && Unused(m, root, n) && Linked(m, m', root, p, i, n)
      requires !Present(Word(m, Table(m, root, p).value, i))
      requires FreshFrames(m, root, lo, hi) && lo <= n * 4096
      ensures FreshFrames(m', root, n * 4096 + 4096, hi)
    {
      hide Linked, TreeShaped, Table;
      forall k: nat, q: Path | n * 4096 + 4096 <= k * 4096 && k * 4096 + 4096 <= hi
        ensures Table(m', root, q) != Some(k) {
        LinkTable(m, m', root, p, i, n, q);
        assert Unused(m, root, k);
      }
    }

    static lemma FreshLess(m: Mem, root: nat, lo: nat, lo': nat, hi: nat)
      requires FreshFrames(m, root, lo, hi) && lo <= lo'
      ensures FreshFrames(m, root, lo', hi)
    {
    }

    /** Every page is translated as it was. */
    static ghost predicate SameWalks(m: Mem, m': Mem, root: nat) {
      forall vp: nat :: Translate(m', root, vp) == Translate(m, root, vp)
    }

    /**
     * Entry `i` of the table in frame `f`, which `p` leads to; a new table is made if there is
     * none (phys.c:112-120, 121-128, 133-141). No translation changes.
     */
    method Entry(ghost root: nat, ghost p: Path, f: nat, i: nat) returns (ok: bool, e: nat)
      requires Paged(root) && |p| < 3 && i < 512 && Table(mem[..], root, p) == Some(f)
      modifies this`poolUsed, this`blocks, mem
      ensures Paged(root) && SameWalks(old(mem[..]), mem[..], root) && Table(mem[..], root, p) == Some(f)
      ensures ok ==> Present(e) && e == Word(mem[..], f, i)
      ensures var there := Present(Word(old(mem[..]), f, i));
              && (ok <==> there || old(PagesLeft()) > 0) && (!ok ==> PagesLeft() == 0)
              && (there ==> mem[..] == old(mem[..]) && PagesLeft() == old(PagesLeft()))
              && (!there && ok ==> PagesLeft() == old(PagesLeft()) - 1 && Fresh(mem[..], e))
    {
      hide Laid, TreeShaped, FreshFrames, Table, Translate, Zeroed, SameWalks, Word, Fresh, Align4K;
      TableThere(mem[..], root, p, f);
      SameSelf(mem[..], root);
      e := mem[f * 512 + i];
      WordIs(mem[..], f, i);
      ok := true;
      if Present(e) {
        return;
      }
      ghost var m, lo, hi := mem[..], poolPhys + poolUsed, poolPhys + poolSize;
      ghost var fr;
      var n;
      n, fr := AllocPt();
      if n == 0 {
        if present { FreshLess(m, root, lo, poolPhys + poolUsed, hi); }
        return false, 0;
      }
      ghost var m1 := mem[..];
      NewTable(m, m1, root, p, f, i, fr, lo, hi);
      e := n + 3;
      Odd(fr);
      mem[f * 512 + i] := e;
      assert mem[..] == m1[f * 512 + i := e];
    }

    /** A zeroed frame of the pool, entered where no table was. */
    static lemma NewTable(m: Mem, m1: Mem, root: nat, p: Path, f: nat, i: nat, n: nat, lo: nat, hi: nat)
      requires TreeShaped(m, root) && Table(m, root, p) == Some(f) && |p| < 3 && i < 512 && !Present(Word(m, f, i))
      requires FreshFrames(m, root, lo, hi) && lo <= n * 4096 && n * 4096 + 4096 <= hi <= GIB4 && Zeroed(m, m1, n)
      ensures f * 512 + i < |m1|
      ensures var m' := m1[f * 512 + i := n * 4096 + 3];
              && TreeShaped(m', root) && FreshFrames(m', root, n * 4096 + 4096, hi) && SameWalks(m, m', root)
              && Table(m', root, p) == Some(f) && Word(m', f, i) == n * 4096 + 3 && Fresh(m', n * 4096 + 3)
    {
      hide TreeShaped, FreshFrames, Table, Translate, Linked, Zeroed, Fresh;
      TableThere(m, root, p, f);
      FreshUnused(m, root, lo, hi, n);
      OtherFrame(m, root, p, f, n);
      SameSize(m, m1, n);
      LinkIs(m, m1, root, p, f, i, n);
      var m' := m1[f * 512 + i := n * 4096 + 3];
      LinkTree(m, m', root, p, i, n);
      LinkTable(m, m', root, p, i, n, p);
      LinkFresh(m, m', root, p, i, n);
      FreshLeft(m, m', root, p, i, n, lo, hi);
      forall vp: nat
        ensures Translate(m', root, vp) == Translate(m, root, vp) { LinkTranslate(m, m', root, p, i, n, vp); }
    }

    static lemma LinkFresh(m: Mem, m': Mem, root: nat, p: Path, i: nat, n: nat)
      requires Linked(m, m', root, p, i, n) && n < 0x10_0000
      ensures Fresh(m', n * 4096 + 3)
    {
      hide FrameOf, Large, Present, Table;
      FrameBits(n, 3);
      LowBits(n);
    }

    static lemma WordIs(m: Mem, f: nat, i: nat)
      requires i < 512 && f * 512 + i < |m|
      ensures Word(m, f, i) == m[f * 512 + i]
    {
    }

    static lemma SameSize(m: Mem, m1: Mem, n: nat)
      requires Zeroed(m, m1, n)
      ensures |m1| == |m| && n * 512 + 512 <= |m|
    {
    }

    static lemma SameSelf(m: Mem, root: nat)
      ensures SameWalks(m, m, root)
    {
    }

    static lemma TableThere(m: Mem, root: nat, p: Path, f: nat)
      requires TreeShaped(m, root) && Table(m, root, p) == Some(f)
      ensures f * 512 + 512 <= |m|
    {
    }

    static lemma FreshUnused(m: Mem, root: nat, lo: nat, hi: nat, n: nat)
      requires FreshFrames(m, root, lo, hi) && lo <= n * 4096 && n * 4096 + 4096 <= hi
      ensures Unused(m, root, n)
    {
    }

    static lemma OtherFrame(m: Mem, root: nat, p: Path, f: nat, n: nat)
      requires Unused(m, root, n) && Table(m, root, p) == Some(f)
      ensures f != n
    {
    }

    /** The page number the direct map gives physical page `q`. */
    function Vp(q: nat): nat { (hhdm + q * 4096) % U64 / 4096 }

    /** Page `vp` is now `frame`, and every page with other low 36 bits is translated as before. */
    static ghost predicate Mapped(m: Mem, m': Mem, root: nat, vp: nat, frame: nat) {
      forall w: nat :: Translate(m', root, w) == if w % 0x10_0000_0000 == vp % 0x10_0000_0000 then Some(frame)
        else Translate(m, root, w)
    }

    /**
     * map_mmio_page (phys.c:109-150): page `q` of physical memory in the direct map, uncached. It
     * fails, changing no translation, exactly when the pool has too few pages for the tables that
     * the walk lacks, or a large page is in the way.
     */
    method MapPage(cr3: nat, q: nat) returns (ok: bool)
      requires Paged(FrameOf(cr3))
      modifies this`poolUsed, this`blocks, mem
      ensures Paged(FrameOf(cr3))
      ensures ok <==> Takes(old(mem[..]), FrameOf(cr3), Vp(q), old(PagesLeft()))
      ensures !ok ==> PagesLeft() == 0 || Blocked(mem[..], FrameOf(cr3), Vp(q))
      ensures if ok then Mapped(old(mem[..]), mem[..], FrameOf(cr3), Vp(q), q % 0x100_0000_0000)
                         && EntryAt(mem[..], FrameOf(cr3), Vp(q), 3) == Some(q % 0x100_0000_0000 * 4096 + 27)
              else SameWalks(old(mem[..]), mem[..], FrameOf(cr3))
    {
      hide Laid, TreeShaped, FreshFrames, Table, Translate, SameWalks, Index, Paged, Mapped, EntryAt, Takes, Blocked,
           Fresh;
      ghost var root, m := FrameOf(cr3), mem[..];
      var vp := Vp(q);
      var f := FrameOf(cr3);
      RootTable(mem[..], root);
      ok, f := Down(root, vp, 0, f);
      if !ok {
        return;
      }
      ghost var m1 := mem[..];
      ok, f := Down(root, vp, 1, f);
      SameTwice(m, m1, mem[..], root);
      if !ok {
        return;
      }
      ghost var m2 := mem[..];
      ok, f := Down(root, vp, 2, f);
      SameTwice(m, m2, mem[..], root);
      if !ok {
        return;
      }
      AllThere(mem[..], root, vp, f, PagesLeft());
      SetLeaf(root, m, vp, f, q % 0x100_0000_0000);
    }

    /** One level down: the table for `vp` behind that in frame `f`, if none lies in the way (phys.c:112-143). */
    method Down(ghost root: nat, vp: nat, n: nat, f: nat) returns (ok: bool, next: nat)
      requires Paged(root) && n < 3 && Table(mem[..], root, PathOf(vp, n)) == Some(f)
      modifies this`poolUsed, this`blocks, mem
      ensures Paged(root) && SameWalks(old(mem[..]), mem[..], root)
      ensures ok ==> Table(mem[..], root, PathOf(vp, n + 1)) == Some(next)
      ensures if ok then Takes(mem[..], root, vp, PagesLeft()) <==> Takes(old(mem[..]), root, vp, old(PagesLeft()))
              else !Takes(old(mem[..]), root, vp, old(PagesLeft())) && (PagesLeft() == 0 || Blocked(mem[..], root, vp))
    {
      hide Laid, TreeShaped, FreshFrames, Table, Translate, SameWalks, Index, Paged, EntryAt, Takes, Blocked, Fresh;
      ghost var m, pages := mem[..], PagesLeft();
      var e;
      ok, e := Entry(root, PathOf(vp, n), f, Index(vp, 4 - n));
      if !ok {
        NoPage(m, root, vp, n, f);
        return false, 0;
      }
      StepTakes(m, mem[..], root, vp, n, f, pages, PagesLeft());
      if n > 0 && Large(e) {
        InTheWay(mem[..], root, vp, n, f, PagesLeft());
        return false, 0;
      }
      Below(mem[..], root, vp, n, f, e);
      next := FrameOf(e);
    }

    static lemma NoPage(m: Mem, root: nat, vp: nat, n: nat, f: nat)
      requires n < 3 && Table(m, root, PathOf(vp, n)) == Some(f) && !Present(Word(m, f, Index(vp, 4 - n)))
      ensures !Takes(m, root, vp, 0)
    {
      hide Index, Table;
      LackingBelow(m, root, vp, n);
    }

    static lemma InTheWay(m: Mem, root: nat, vp: nat, n: nat, f: nat, pages: nat)
      requires 1 <= n < 3 && Table(m, root, PathOf(vp, n)) == Some(f)
      requires Present(Word(m, f, Index(vp, 4 - n))) && Large(Word(m, f, Index(vp, 4 - n)))
      ensures Blocked(m, root, vp) && !Takes(m, root, vp, pages)
    {
      hide Index, Table;
      assert LargeAt(EntryAt(m, root, vp, n));
    }

    static lemma AllThere(m: Mem, root: nat, vp: nat, f: nat, pages: nat)
      requires Table(m, root, PathOf(vp, 3)) == Some(f)
      ensures Takes(m, root, vp, pages)
    {
      hide Index, Table;
      Above(m, root, vp, 3);
    }

    /** The leaf entry: present, writable, uncached (phys.c:145-147). */
    method SetLeaf(ghost root: nat, ghost m: Mem, vp: nat, f: nat, frame: nat)
      requires Paged(root) && SameWalks(m, mem[..], root) && Table(mem[..], root, PathOf(vp, 3)) == Some(f)
          && frame < 0x100_0000_0000
      modifies mem
      ensures Paged(root) && Mapped(m, mem[..], root, vp, frame)
          && EntryAt(mem[..], root, vp, 3) == Some(frame * 4096 + 27)
    {
      hide Laid, TreeShaped, FreshFrames, Table, Translate, SameWalks, Index, Mapped, EntryAt;
      ghost var m3 := mem[..];
      LeafThere(root, f, vp);
      var leaf: nat := frame * 4096 + 27;
      mem[f * 512 + Index(vp, 1)] := leaf;
      assert mem[..] == m3[f * 512 + Index(vp, 1) := leaf];
      LeafMapped(m, m3, root, vp, f, frame);
      StillPaged(m3, root, vp, f, leaf);
    }

    static lemma RootTable(m: Mem, root: nat)
      ensures Table(m, root, PathOf(0, 0)) == Some(root) && forall vp: nat :: PathOf(vp, 0) == PathOf(0, 0)
    {
    }

    /** One level down. */
    static lemma Below(m: Mem, root: nat, vp: nat, n: nat, f: nat, e: nat)
      requires n < 3 && Table(m, root, PathOf(vp, n)) == Some(f) && e == Word(m, f, Index(vp, 4 - n)) && Present(e)
          && (n == 0 || !Large(e))
      ensures Table(m, root, PathOf(vp, n + 1)) == Some(FrameOf(e))
    {
      PathStep(vp, n);
      NextTable(m, root, PathOf(vp, n), f, Index(vp, 4 - n));
    }

    static lemma SameTwice(a: Mem, b: Mem, c: Mem, root: nat)
      requires SameWalks(a, b, root) && SameWalks(b, c, root)
      ensures SameWalks(a, c, root)
    {
    }

    lemma LeafThere(root: nat, f: nat, vp: nat)
      requires Paged(root) && Table(mem[..], root, PathOf(vp, 3)) == Some(f)
      ensures f * 512 + Index(vp, 1) < mem.Length
    {
      hide Laid, Table, FreshFrames;
      TableThere(mem[..], root, PathOf(vp, 3), f);
    }

    static lemma LeafMapped(m: Mem, m3: Mem, root: nat, vp: nat, f: nat, frame: nat)
      requires SameWalks(m, m3, root) && TreeShaped(m3, root) && Table(m3, root, PathOf(vp, 3)) == Some(f)
      requires f * 512 + Index(vp, 1) < |m3| && frame < 0x100_0000_0000
      ensures var m' := m3[f * 512 + Index(vp, 1) := frame * 4096 + 27];
              Mapped(m, m', root, vp, frame) && EntryAt(m', root, vp, 3) == Some(frame * 4096 + 27)
    {
      hide Table, Translate, TreeShaped, Index;
      var e: nat := frame * 4096 + 27;
      var m' := m3[f * 512 + Index(vp, 1) := e];
      FrameBits(frame, 27);
      assert Present(e);
      forall w: nat
        ensures Translate(m', root, w) == if w % 0x10_0000_0000 == vp % 0x10_0000_0000 then Some(frame)
            else Translate(m, root, w) {
        LeafTranslate(m3, root, vp, f, e, w);
      }
      TableThere(m3, root, PathOf(vp, 3), f);
      SetTable(m3, root, PathOf(vp, 3), f, Index(vp, 1), e, PathOf(vp, 3));
      SetWord(m3, f, Index(vp, 1), e, f, Index(vp, 1));
    }

    /** A leaf entry is no table: the tree and the pool's unused frames are as they were. */
    lemma StillPaged(m3: Mem, root: nat, vp: nat, f: nat, e: nat)
      requires PoolOk() && poolPhys % 4096 == 0 && poolPhys > 0 && Present(e)
      requires TreeShaped(m3, root) && (present ==> FreshFrames(m3, root, poolPhys + poolUsed, poolPhys + poolSize))
      requires Table(m3, root, PathOf(vp, 3)) == Some(f) && f * 512 + Index(vp, 1) < |m3|
          && mem[..] == m3[f * 512 + Index(vp, 1) := e]
      ensures Paged(root)
    {
      hide Laid, Table, Translate, TreeShaped, Index;
      LeafTranslate(m3, root, vp, f, e, 0);
      forall k: nat, p: Path | present && poolPhys + poolUsed <= k * 4096 && k * 4096 + 4096 <= poolPhys + poolSize
        ensures Table(mem[..], root, p) != Some(k)
      {
        SetTable(m3, root, PathOf(vp, 3), f, Index(vp, 1), e, p);
        assert Unused(m3, root, k);
      }
    }

    /** Low 36 bits of the page number the direct map gives page `q`. */
    lemma VpIs(q: nat)
      requires hhdm % 4096 == 0
      ensures Vp(q) % 0x10_0000_0000 == (hhdm / 4096 + q) % 0x10_0000_0000
    {
      var h := hhdm / 4096;
      assert hhdm + q * 4096 == (h + q) * 4096;
      Wrapped(h + q);
    }

    static lemma Wrapped(x: nat)
      ensures x * 4096 % U64 / 4096 % 0x10_0000_0000 == x % 0x10_0000_0000
    {
      var a, b := x / 0x10_0000_0000_0000, x % 0x10_0000_0000_0000;
      assert x * 4096 == a * U64 + b * 4096;
      assert x * 4096 % U64 == b * 4096;
      Div4096(b, 0);
      LowOf(a, b);
    }

    static lemma LowOf(a: nat, b: nat)
      ensures (a * 0x10_0000_0000_0000 + b) % 0x10_0000_0000 == b % 0x10_0000_0000
    {
    }

    static lemma Nearby(h: nat, k: nat, q: nat)
      requires k < q < k + 0x10_0000_0000
      ensures (h + k) % 0x10_0000_0000 != (h + q) % 0x10_0000_0000
    {
    }

    /** Pages lo .. q - 1 are mapped to themselves, and the rest is as it was. */
    ghost predicate Ranged(m: Mem, m': Mem, root: nat, lo: nat, q: nat) {
      && (q <= lo + 0x10_0000_0000 ==>
           forall k: nat :: lo <= k < q ==> Translate(m', root, Vp(k)) == Some(k % 0x100_0000_0000))
      && forall w: nat :: Missed(w, lo, q) ==> Translate(m', root, w) == Translate(m, root, w)
    }

    /** Page `w` is none of those the direct map gives pages lo .. q - 1. */
    ghost predicate Missed(w: nat, lo: nat, q: nat) {
      forall k: nat :: lo <= k < q ==> Vp(k) % 0x10_0000_0000 != w % 0x10_0000_0000
    }

    lemma RangedStep(m: Mem, m1: Mem, m': Mem, root: nat, lo: nat, q: nat)
      requires hhdm % 4096 == 0 && lo <= q && Ranged(m, m1, root, lo, q)
          && Mapped(m1, m', root, Vp(q), q % 0x100_0000_0000)
      ensures Ranged(m, m', root, lo, q + 1)
    {
      hide Translate, Vp;
      forall k: nat | lo <= k < q + 1 && q + 1 <= lo + 0x10_0000_0000
        ensures Translate(m', root, Vp(k)) == Some(k % 0x100_0000_0000) {
        VpIs(k);
        VpIs(q);
        if k < q { Nearby(hhdm / 4096, k, q); }
      }
      forall w: nat | Missed(w, lo, q + 1) ensures Translate(m', root, w) == Translate(m, root, w) {
        assert Vp(q) % 0x10_0000_0000 != w % 0x10_0000_0000;
        assert Missed(w, lo, q);
      }
    }

    /**
     * phys_map_mmio (phys.c:156-171): on success every page of the range is mapped to itself through
     * the direct map, if the range lies in the 52-bit physical space and spans no more than 2^36
     * pages; a page outside the range is translated as before, on failure too. With a direct map
     * and a length it fails only when the pool is used up or a large page is in the way.
     */
    method MapMmio(cr3: nat, phys: nat, bytes: nat) returns (ok: bool)
      requires Paged(FrameOf(cr3)) && hhdm % 4096 == 0 && phys < U64 && bytes < U64
      modifies this`poolUsed, this`blocks, mem
      ensures Paged(FrameOf(cr3)) && (ok ==> hhdm != 0 && bytes != 0)
      ensures !ok && hhdm != 0 && bytes != 0 ==>
                PagesLeft() == 0 || exists k: nat :: phys / 4096 <= k < (phys + bytes + 4095) % U64 / 4096
                                                 && Blocked(mem[..], FrameOf(cr3), Vp(k))
      ensures var lo, hi := phys / 4096, (phys + bytes + 4095) % U64 / 4096;
              && (ok && hi <= 0x100_0000_0000 && hi <= lo + 0x10_0000_0000 ==>
                    forall k: nat :: lo <= k < hi ==> Translate(mem[..], FrameOf(cr3), Vp(k)) == Some(k))
              && forall w: nat :: Missed(w, lo, hi) ==>
                   Translate(mem[..], FrameOf(cr3), w) == Translate(old(mem[..]), FrameOf(cr3), w)
    {
      hide Paged, Translate, Ranged, Mapped, Vp, Missed, FrameOf, EntryAt, Takes, Blocked, PagesLeft;
      ghost var root, m := FrameOf(cr3), mem[..];
      ghost var lo, hi := phys / 4096, (phys + bytes + 4095) % U64 / 4096;
      RangedStart(m, root, lo);
      RangedDone(m, m, root, lo, lo, hi);
      if hhdm == 0 || bytes == 0 {
        return false;
      }
      var p, end := phys / 4096 * 4096, (phys + bytes + 4095) % U64 / 4096 * 4096;
      ghost var q := lo;
      while p < end
        invariant Paged(root) && p == q * 4096 && lo <= q && (q <= hi || q == lo) && Ranged(m, mem[..], root, lo, q)
      {
        ghost var m1 := mem[..];
        var mapped := MapPage(cr3, p / 4096);
        if !mapped {
          RangedSame(m, m1, mem[..], root, lo, q);
          RangedDone(m, mem[..], root, lo, q, hi);
          return false;
        }
        RangedStep(m, m1, mem[..], root, lo, q);
        q := q + 1;
        p := p + 4096;
      }
      RangedDone(m, mem[..], root, lo, q, hi);
      ok := true;
    }

    lemma RangedSame(m: Mem, m1: Mem, m': Mem, root: nat, lo: nat, q: nat)
      requires Ranged(m, m1, root, lo, q) && SameWalks(m1, m', root)
      ensures Ranged(m, m', root, lo, q)
    {
      hide Translate, Vp, Missed;
    }

    lemma RangedStart(m: Mem, root: nat, lo: nat)
      ensures Ranged(m, m, root, lo, lo)
    {
    }

    lemma MissedLess(w: nat, lo: nat, q: nat, hi: nat)
      requires Missed(w, lo, hi) && (q <= hi || q == lo)
      ensures Missed(w, lo, q)
    {
    }

    /** What is done when the loop stands at `q`, for the range up to `hi`. */
    lemma RangedDone(m: Mem, m': Mem, root: nat, lo: nat, q: nat, hi: nat)
      requires Ranged(m, m', root, lo, q) && (q <= hi || q == lo)
      ensures forall w: nat :: Missed(w, lo, hi) ==> Translate(m', root, w) == Translate(m, root, w)
      ensures q >= hi && hi <= 0x100_0000_0000 && hi <= lo + 0x10_0000_0000 ==>
                forall k: nat :: lo <= k < hi ==> Translate(m', root, Vp(k)) == Some(k)
    {
      hide Translate, Vp, Missed;
      forall w: nat | Missed(w, lo, hi)
        ensures Translate(m', root, w) == Translate(m, root, w) { MissedLess(w, lo, q, hi); }
      forall k: nat | q >= hi && hi <= 0x100_0000_0000 && hi <= lo + 0x10_0000_0000 && lo <= k < hi
        ensures Translate(m', root, Vp(k)) == Some(k) {
        assert q == hi;
        assert k % 0x100_0000_0000 == k;
      }
    }
  }
}
