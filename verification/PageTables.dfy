/**
 * Four-level page tables in physical memory (Intel SDM volume 3A, section 4.5): what a
 * walk yields, and what adding a table or a leaf entry changes (kernel/src/phys.c:73-150).
 * Memory is a sequence of 64-bit words, 512 to a page frame.
 */
module PageTables {
  import opened Options

  type Mem = seq<nat>

  /** Word `i` of frame `f`; memory that is not there reads 0. */
  function Word(m: Mem, f: nat, i: nat): nat
    requires i < 512
  {
    if f * 512 + i < |m| then m[f * 512 + i] else 0
  }

  predicate Present(e: nat) { e % 2 == 1 }
  predicate Large(e: nat) { e / 128 % 2 == 1 }
  /** The frame bits 12..51 name. */
  function FrameOf(e: nat): nat { e / 4096 % 0x100_0000_0000 }

  /** Which entry of each table a page number selects: bits 27..35, 18..26, 9..17 and 0..8. */
  function Index(vp: nat, level: nat): (i: nat)
    requires 1 <= level <= 4
    ensures i < 512
  {
    if level == 4 then vp / 0x800_0000 % 512
    else if level == 3 then vp / 0x4_0000 % 512
    else if level == 2 then vp / 512 % 512
    else vp % 512
  }

  /** Entry indices from the root down to a table: none for the root, three for a leaf table. */
  type Path = p: seq<nat> | |p| <= 3 && forall k :: 0 <= k < |p| ==> p[k] < 512 witness []

  /** The table an entry names; below the root's entries a large page is none. */
  function Next(e: nat, depth: nat): Option<nat> {
    if Present(e) && (depth == 1 || !Large(e)) then Some(FrameOf(e)) else None
  }

  /** The frame of the table at `p`, from the root in frame `root`. */
  function Table(m: Mem, root: nat, p: Path): Option<nat>
    decreases |p|
  {
    if p == [] then Some(root)
    else
      var q: Path := p[..|p|-1];
      match Table(m, root, q)
      case Some(f) => Next(Word(m, f, p[|p|-1]), |p|)
      case None => None
  }

  function PathOf(vp: nat, n: nat): (p: Path)
    requires n <= 3
    ensures |p| == n && forall k :: 0 <= k < n ==> p[k] == Index(vp, 4 - k)
  {
    seq(n, k requires 0 <= k < n => Index(vp, 4 - k))
  }

  /** The entry a walk for `vp` meets in the table at depth `n`, if that table is there. */
  function EntryAt(m: Mem, root: nat, vp: nat, n: nat): Option<nat>
    requires n <= 3
  {
    match Table(m, root, PathOf(vp, n))
    case Some(f) => Some(Word(m, f, Index(vp, 4 - n)))
    case None => None
  }

  /** The frame page `vp` is translated to. */
  function Translate(m: Mem, root: nat, vp: nat): Option<nat> {
    match EntryAt(m, root, vp, 3)
    case Some(e) => if Present(e) then Some(FrameOf(e)) else None
    case None =>
      match EntryAt(m, root, vp, 2)
      case Some(e) => if Present(e) && Large(e) then Some(FrameOf(e) / 512 * 512 + vp % 512) else None
      case None =>
        match EntryAt(m, root, vp, 1)
        case Some(e) => if Present(e) && Large(e) then Some(FrameOf(e) / 0x4_0000 * 0x4_0000 + vp % 0x4_0000) else None
        case None => None
  }

  /** Different paths lead to different tables, and every table lies in memory. */
  ghost predicate TreeShaped(m: Mem, root: nat) {
    && (forall p: Path :: Table(m, root, p).Some? ==> Table(m, root, p).value * 512 + 512 <= |m|)
    && forall p: Path, q: Path :: p != q && Table(m, root, p).Some? && Table(m, root, q).Some? ==>
         Table(m, root, p).value != Table(m, root, q).value
  }

  // ---------------------------------------------------------------- writing an entry

  lemma SetWord(m: Mem, f: nat, i: nat, e: nat, g: nat, j: nat)
    requires f * 512 + 512 <= |m| && i < 512 && j < 512
    ensures f * 512 + i < |m| && Word(m[f * 512 + i := e], g, j) == if g == f && j == i then e else Word(m, g, j)
  {
    if g < f { assert g * 512 + 512 <= f * 512; } else if g > f { assert f * 512 + 512 <= g * 512; }
  }

  /** `q` goes through entry `i` of the table at `p`. */
  predicate Through(q: Path, p: Path, i: nat) { |q| > |p| && q[..|p|] == p && q[|p|] == i }

  /** Writing entry `i` of the table at `p` moves only tables reached through it. */
  lemma {:induction false} SetTable(m: Mem, root: nat, p: Path, f: nat, i: nat, e: nat, q: Path)
    requires TreeShaped(m, root) && Table(m, root, p) == Some(f) && i < 512 && f * 512 + i < |m|
    ensures !Through(q, p, i) ==> Table(m[f * 512 + i := e], root, q) == Table(m, root, q)
    decreases |q|
  {
    if q != [] && !Through(q, p, i) {
      var q0: Path := q[..|q|-1];
      assert Through(q0, p, i) ==>
        Through(q, p, i) by { assert |q0| > |p| ==> q0[..|p|] == q[..|p|] && q0[|p|] == q[|p|]; }
      SetTable(m, root, p, f, i, e, q0);
      match Table(m, root, q0)
      case Some(g) =>
        SetWord(m, f, i, e, g, q[|q|-1]);
        assert g == f ==> q0 == p;
        assert q0 == p ==> q[|q|-1] != i;
      case None =>
    }
  }

  lemma NextTable(m: Mem, root: nat, p: Path, f: nat, i: nat)
    requires Table(m, root, p) == Some(f) && |p| < 3 && i < 512
    ensures Table(m, root, p + [i]) == Next(Word(m, f, i), |p| + 1)
  {
    var q: Path := p + [i];
    assert q[..|q|-1] == p;
  }

  // ---------------------------------------------------------------- a new table

  /** `m'` is `m` with frame `n` zeroed and entry `i` of the table at `p` naming it. */
  ghost predicate Linked(m: Mem, m': Mem, root: nat, p: Path, i: nat, n: nat) {
    && |p| < 3 && i < 512 && |m'| == |m| && Table(m, root, p).Some? && n * 512 + 512 <= |m|
    && (forall j :: 0 <= j < 512 ==> Word(m', n, j) == 0)
    && Next(Word(m', Table(m, root, p).value, i), |p| + 1) == Some(n)
    && (forall g: nat, j: nat :: j < 512 && g != n && !(g == Table(m, root, p).value && j == i) ==>
         Word(m', g, j) == Word(m, g, j))
  }

  /** No path leads to frame `n`. */
  ghost predicate Unused(m: Mem, root: nat, n: nat) { forall p: Path :: Table(m, root, p) != Some(n) }

  /** Linking an unused frame where no table was adds that table and no other. */
  lemma {:induction false} LinkTable(m: Mem, m': Mem, root: nat, p: Path, i: nat, n: nat, q: Path)
    requires TreeShaped(m, root) && Unused(m, root, n) && Linked(m, m', root, p, i, n)
    requires !Present(Word(m, Table(m, root, p).value, i))
    ensures Table(m', root, q) == if q == p + [i] then Some(n) else Table(m, root, q)
    decreases |q|
  {
    if q == [] {
      assert Table(m, root, q) == Some(root);
    } else {
      var q0: Path, k := q[..|q|-1], q[|q|-1];
      LinkTable(m, m', root, p, i, n, q0);
      if q0 == p + [i] {
        assert Word(m', n, k) == 0;
        NextTable(m, root, p, Table(m, root, p).value, i);
        assert Table(m, root, q0) == None;
        assert q != p + [i];
      } else if Table(m, root, q0).Some? {
        var g := Table(m, root, q0).value;
        assert g != n;
        if g == Table(m, root, p).value && k == i { assert q0 == p && q == p + [i]; } else { assert q != p + [i]; }
      } else {
        assert q == p + [i] ==> q0 == p;
      }
    }
  }

  lemma LinkTree(m: Mem, m': Mem, root: nat, p: Path, i: nat, n: nat)
    requires TreeShaped(m, root) && Unused(m, root, n) && Linked(m, m', root, p, i, n)
    requires !Present(Word(m, Table(m, root, p).value, i))
    ensures TreeShaped(m', root)
  {
    forall q: Path
      ensures Table(m', root, q) == if q == p + [i] then Some(n)
          else Table(m, root, q) { LinkTable(m, m', root, p, i, n, q); }
  }

  /** A page whose walk would go through the entry that was not there was not mapped. */
  lemma NotMapped(m: Mem, root: nat, vp: nat, n: nat)
    requires n < 3 && Table(m, root, PathOf(vp, n)).Some?
        && !Present(Word(m, Table(m, root, PathOf(vp, n)).value, Index(vp, 4 - n)))
    ensures Translate(m, root, vp) == None
    ensures forall k :: n < k <= 3 ==> EntryAt(m, root, vp, k) == None
    ensures EntryAt(m, root, vp, n).Some? && !Present(EntryAt(m, root, vp, n).value)
  {
    PathStep(vp, n);
    NextTable(m, root, PathOf(vp, n), Table(m, root, PathOf(vp, n)).value, Index(vp, 4 - n));
    if n < 2 {
      PathStep(vp, n + 1);
      Orphan(m, root, vp, n + 1);
      if n < 1 {
        PathStep(vp, 2);
        Orphan(m, root, vp, 2);
      }
    }
  }

  lemma PathStep(vp: nat, n: nat)
    requires n < 3
    ensures PathOf(vp, n + 1) == PathOf(vp, n) + [Index(vp, 4 - n)]
    ensures PathOf(vp, n + 1)[..n] == PathOf(vp, n)
  {
  }

  /** Below a table that is not there is none. */
  lemma Orphan(m: Mem, root: nat, vp: nat, n: nat)
    requires n < 3 && Table(m, root, PathOf(vp, n)) == None
    ensures Table(m, root, PathOf(vp, n + 1)) == None
  {
    PathStep(vp, n);
  }

  /** The same, with an entry that is there but empty. */
  lemma EmptyMapped(m: Mem, root: nat, vp: nat, n: nat)
    requires n <= 3 && EntryAt(m, root, vp, n).Some? && !Present(EntryAt(m, root, vp, n).value)
    ensures Translate(m, root, vp) == None
  {
    hide Index;
    if n < 3 { NotMapped(m, root, vp, n); }
  }

  /** Linking a new table changes no translation. */
  lemma LinkTranslate(m: Mem, m': Mem, root: nat, p: Path, i: nat, n: nat, vp: nat)
    requires TreeShaped(m, root) && Unused(m, root, n) && Linked(m, m', root, p, i, n)
    requires !Present(Word(m, Table(m, root, p).value, i))
    ensures Translate(m', root, vp) == Translate(m, root, vp)
  {
    hide Index, Translate, Table, TreeShaped;
    var d := |p|;
    PathStep(vp, d);
    forall q: Path
      ensures Table(m', root, q) == if q == p + [i] then Some(n)
          else Table(m, root, q) { LinkTable(m, m', root, p, i, n, q); }
    if PathOf(vp, d) == p && Index(vp, 4 - d) == i {
      NotMapped(m, root, vp, d);
      assert EntryAt(m', root, vp, d + 1) == Some(0);
      EmptyMapped(m', root, vp, d + 1);
    } else {
      forall k | 0 <= k <= 3
        ensures EntryAt(m', root, vp, k) == EntryAt(m, root, vp, k) { LinkEntry(m, m', root, p, i, n, vp, k); }
      SameEntries(m, m', root, vp);
    }
  }

  /** A page of 1 GiB or 2 MiB lies where the walk for `vp` needs a table. */
  predicate Blocked(m: Mem, root: nat, vp: nat) {
    exists k :: 1 <= k <= 2 && LargeAt(EntryAt(m, root, vp, k))
  }

  predicate LargeAt(e: Option<nat>) { e.Some? && Present(e.value) && Large(e.value) }

  /** How many tables the walk for `vp` lacks. */
  function Lacking(m: Mem, root: nat, vp: nat): nat {
    if EntryAt(m, root, vp, 1).None? then 3
    else if EntryAt(m, root, vp, 2).None? then 2
    else if EntryAt(m, root, vp, 3).None? then 1
    else 0
  }

  /** With `pages` new tables to be had, `vp` can be given an entry of its own. */
  predicate Takes(m: Mem, root: nat, vp: nat, pages: nat) { !Blocked(m, root, vp) && Lacking(m, root, vp) <= pages }

  /** Above a table that is there, no entry is a large page. */
  lemma Above(m: Mem, root: nat, vp: nat, n: nat)
    requires n <= 3 && Table(m, root, PathOf(vp, n)).Some?
    ensures forall k :: 0 <= k <= n ==>
        EntryAt(m, root, vp, k).Some? && (1 <= k < n ==> !LargeAt(EntryAt(m, root, vp, k)))
  {
    if n > 0 {
      PathStep(vp, n - 1);
      Above(m, root, vp, n - 1);
    }
  }

  /** At an entry that is not there, all tables below are lacking and no large page is in the way. */
  lemma LackingBelow(m: Mem, root: nat, vp: nat, n: nat)
    requires n < 3 && EntryAt(m, root, vp, n).Some? && !Present(EntryAt(m, root, vp, n).value)
    ensures !Blocked(m, root, vp) && Lacking(m, root, vp) == 3 - n
  {
    Above(m, root, vp, n);
    NotMapped(m, root, vp, n);
  }

  /** One step down, through an entry that was there or with a new table: what is left to do still fits. */
  lemma StepTakes(m: Mem, m1: Mem, root: nat, vp: nat, n: nat, f: nat, pages: nat, pages1: nat)
    requires n < 3 && Table(m, root, PathOf(vp, n)) == Table(m1, root, PathOf(vp, n)) == Some(f)
    requires if Present(Word(m, f, Index(vp, 4 - n))) then m1 == m && pages1 == pages
             else pages1 == pages - 1 && Fresh(m1, Word(m1, f, Index(vp, 4 - n)))
    ensures Takes(m1, root, vp, pages1) <==> Takes(m, root, vp, pages)
  {
    hide Index, Takes, Blocked, Lacking;
    if !Present(Word(m, f, Index(vp, 4 - n))) {
      LackingBelow(m, root, vp, n);
      PathStep(vp, n);
      NextTable(m1, root, PathOf(vp, n), f, Index(vp, 4 - n));
      FreshLacks(m1, root, vp, n + 1);
      TakesIs(m, root, vp, pages, 3 - n);
      TakesIs(m1, root, vp, pages1, 2 - n);
    }
  }

  /** The entry names an empty table. */
  ghost predicate Fresh(m: Mem, e: nat) {
    Present(e) && !Large(e) && forall j :: 0 <= j < 512 ==> Word(m, FrameOf(e), j) == 0
  }

  lemma TakesIs(m: Mem, root: nat, vp: nat, pages: nat, lacking: nat)
    requires !Blocked(m, root, vp) && Lacking(m, root, vp) == lacking
    ensures Takes(m, root, vp, pages) <==> lacking <= pages
  {
  }

  lemma FreshLacks(m: Mem, root: nat, vp: nat, n: nat)
    requires 1 <= n <= 3 && Table(m, root, PathOf(vp, n)).Some?
    requires forall j :: 0 <= j < 512 ==> Word(m, Table(m, root, PathOf(vp, n)).value, j) == 0
    ensures !Blocked(m, root, vp) && Lacking(m, root, vp) == 3 - n
  {
    if n < 3 { LackingBelow(m, root, vp, n); } else { Above(m, root, vp, 3); }
  }

  lemma SameEntries(m: Mem, m': Mem, root: nat, vp: nat)
    requires forall k :: 0 <= k <= 3 ==> EntryAt(m', root, vp, k) == EntryAt(m, root, vp, k)
    ensures Translate(m', root, vp) == Translate(m, root, vp)
  {
    hide EntryAt;
    assert EntryAt(m', root, vp, 1) == EntryAt(m, root, vp, 1);
    assert EntryAt(m', root, vp, 2) == EntryAt(m, root, vp, 2);
    assert EntryAt(m', root, vp, 3) == EntryAt(m, root, vp, 3);
  }

  lemma LinkEntry(m: Mem, m': Mem, root: nat, p: Path, i: nat, n: nat, vp: nat, k: nat)
    requires TreeShaped(m, root) && Unused(m, root, n) && Linked(m, m', root, p, i, n) && k <= 3
    requires !Present(Word(m, Table(m, root, p).value, i))
    requires PathOf(vp, |p|) != p || Index(vp, 4 - |p|) != i
    ensures EntryAt(m', root, vp, k) == EntryAt(m, root, vp, k)
  {
    hide Index, Table;
    var q := PathOf(vp, k);
    LinkTable(m, m', root, p, i, n, q);
    assert (p + [i])[..|p|] == p && (p + [i])[|p|] == i;
    if k == |p| + 1 { PathStep(vp, |p|); }
    assert q != p + [i];
  }

  // ---------------------------------------------------------------- a leaf entry

  /** Bits 12 to 47 of an address select its translation. */
  lemma SamePage(v: nat, w: nat)
    requires PathOf(v, 3) == PathOf(w, 3) && Index(v, 1) == Index(w, 1)
    ensures v % 0x10_0000_0000 == w % 0x10_0000_0000
  {
    hide Index;
    assert PathOf(v, 3)[0] == PathOf(w, 3)[0] && PathOf(v, 3)[1] == PathOf(w, 3)[1]
      && PathOf(v, 3)[2] == PathOf(w, 3)[2];
    Digits(v);
    Digits(w);
  }

  lemma Shifts(v: nat)
    ensures v / 512 / 512 == v / 0x4_0000 && v / 0x4_0000 / 512 == v / 0x800_0000
        && v / 0x800_0000 / 512 == v / 0x10_0000_0000
  {
  }

  /** The low 36 bits, nine at a time. */
  lemma Digits(v: nat)
    ensures v % 0x10_0000_0000 == ((Index(v, 4) * 512 + Index(v, 3)) * 512 + Index(v, 2)) * 512 + Index(v, 1)
  {
    Shifts(v);
    var a1, a2, a3, a4 := v / 512, v / 0x4_0000, v / 0x800_0000, v / 0x10_0000_0000;
    assert v == a1 * 512 + Index(v, 1) && a1 == a2 * 512 + Index(v, 2) && a2 == a3 * 512 + Index(v, 3)
      && a3 == a4 * 512 + Index(v, 4);
  }

  lemma Radix(a: int, d: int, b: int, e: int)
    requires a * 512 + d == b * 512 + e && 0 <= d < 512 && 0 <= e < 512
    ensures a == b && d == e
  {
  }

  /** A leaf entry written maps its own page and changes no other. */
  lemma LeafTranslate(m: Mem, root: nat, vp: nat, f: nat, e: nat, w: nat)
    requires TreeShaped(m, root) && Table(m, root, PathOf(vp, 3)) == Some(f) && f * 512 + Index(vp, 1) < |m|
        && Present(e)
    ensures var m' := m[f * 512 + Index(vp, 1) := e];
            && TreeShaped(m', root)
            && Translate(m', root, w) == if w % 0x10_0000_0000 == vp % 0x10_0000_0000 then Some(FrameOf(e))
                 else Translate(m, root, w)
  {
    hide Index, Table;
    var i := Index(vp, 1);
    var m' := m[f * 512 + i := e];
    forall q: Path ensures Table(m', root, q) == Table(m, root, q) { SetTable(m, root, PathOf(vp, 3), f, i, e, q); }
    forall k | 0 <= k <= 3 && (PathOf(w, k) != PathOf(vp, 3) || Index(w, 4 - k) != i)
      ensures EntryAt(m', root, w, k) == EntryAt(m, root, w, k)
    {
      LeafEntry(m, root, vp, f, e, w, k);
    }
    if PathOf(w, 3) == PathOf(vp, 3) && Index(w, 1) == i {
      SamePage(w, vp);
      SetWord(m, f, i, e, f, i);
    } else {
      if w % 0x10_0000_0000 == vp % 0x10_0000_0000 { SameDigits(w, vp); }
      assert |PathOf(w, 1)| == 1 && |PathOf(w, 2)| == 2 && |PathOf(vp, 3)| == 3;
    }
  }

  lemma LeafEntry(m: Mem, root: nat, vp: nat, f: nat, e: nat, w: nat, k: nat)
    requires TreeShaped(m, root) && Table(m, root, PathOf(vp, 3)) == Some(f) && f * 512 + Index(vp, 1) < |m| && k <= 3
    requires PathOf(w, k) != PathOf(vp, 3) || Index(w, 4 - k) != Index(vp, 1)
    requires Table(m[f * 512 + Index(vp, 1) := e], root, PathOf(w, k)) == Table(m, root, PathOf(w, k))
    ensures EntryAt(m[f * 512 + Index(vp, 1) := e], root, w, k) == EntryAt(m, root, w, k)
  {
    hide Index, Table;
    if Table(m, root, PathOf(w, k)).Some? {
      SetWord(m, f, Index(vp, 1), e, Table(m, root, PathOf(w, k)).value, Index(w, 4 - k));
    }
  }

  lemma SameDigits(v: nat, w: nat)
    requires v % 0x10_0000_0000 == w % 0x10_0000_0000
    ensures PathOf(v, 3) == PathOf(w, 3) && Index(v, 1) == Index(w, 1)
  {
    hide Index;
    Digits(v);
    Digits(w);
    Radix((Index(v, 4) * 512 + Index(v, 3)) * 512 + Index(v, 2), Index(v, 1),
        (Index(w, 4) * 512 + Index(w, 3)) * 512 + Index(w, 2), Index(w, 1));
    Radix(Index(v, 4) * 512 + Index(v, 3), Index(v, 2), Index(w, 4) * 512 + Index(w, 3), Index(w, 2));
    Radix(Index(v, 4), Index(v, 3), Index(w, 4), Index(w, 3));
  }
}
