/**
 * VFAT long names: the fragments the image builder writes (tools/make_fat.py:75-95) and
 * what the driver's lookup makes of them (kernel/src/fat.c:456-492, 566-597).
 */
module LongNames {
  import opened Bytes
  import opened Names
  import opened Dirs

  /** Printable ASCII. */
  predicate Printable(name: Name) { forall i :: 0 <= i < |name| ==> 32 <= name[i] < 127 }

  /** Unit `k` of the padded name: its characters, a zero, then 0xFFFF. */
  function UnitOf(name: Name, k: nat): (u: nat)
    ensures u < 0x10000
  {
    if k < |name| then name[k] else if k == |name| then 0 else 0xFFFF
  }

  /** Fragments a name takes: its characters and the closing zero, thirteen at a time. */
  function SlotCount(name: Name): nat { (|name| + 13) / 13 }

  /** part | 0x40. */
  function Or64(part: nat): nat { if part / 64 % 2 == 1 then part else part + 64 }

  /** The ordinal of fragment number `part`; the last one is marked (make_fat.py:84). */
  function Ordinal(name: Name, part: nat): nat { if part == SlotCount(name) then Or64(part) else part }

  /** The ordinals fit a byte; a longer name raises an exception. */
  predicate Numbered(name: Name) { SlotCount(name) <= 255 }

  /** None of the ordinals is the mark of an erased entry. */
  predicate Legible(name: Name) { SlotCount(name) < 229 && SlotCount(name) != 165 }

  /** A name of that many fragments has one that the driver takes for an erased entry, and no other has. */
  lemma LegibleExact(name: Name)
    requires Numbered(name)
    ensures Legible(name) <==> forall part: nat :: 1 <= part <= SlotCount(name) ==> Ordinal(name, part) != GONE as int
  {
    if SlotCount(name) >= 229 {
      assert Ordinal(name, 229) == 229;
    } else if SlotCount(name) == 165 {
      assert Ordinal(name, 165) == 229;
    }
  }

  /** `e` is fragment number `part` of `name`. */
  ghost predicate Fragment(e: Entry, name: Name, part: nat, sum: byte) {
    && part >= 1
    && e[0] == Ordinal(name, part)
    && e[11] == ATTR_LFN && e[12] == 0 && e[13] == sum && e[26] == 0 && e[27] == 0
    && forall j :: 0 <= j < 13 ==> R16(e, UnitAt(j)) == UnitOf(name, (part - 1) * 13 + j)
  }

  /** The fragments of `name` as they lie on disk, the last one first. */
  ghost predicate Fragments(parts: seq<Entry>, name: Name, sum: byte) {
    |parts| == SlotCount(name) && forall i :: 0 <= i < |parts| ==> Fragment(parts[i], name, |parts| - i, sum)
  }

  /** Build the fragments of a name (make_fat.py:75-95). */
  method LfnEntries(name: Name, sum: byte) returns (ok: bool, out: seq<Entry>)
    ensures ok <==> Numbered(name)
    ensures ok ==> Fragments(out, name, sum)
  {
    hide Fragment;
    var nslot := SlotCount(name);
    ok, out := nslot <= 255, [];
    if !ok {
      return;
    }
    var part := nslot;
    while part > 0
      invariant 0 <= part <= nslot && |out| == nslot - part
      invariant forall i :: 0 <= i < |out| ==> Fragment(out[i], name, nslot - i, sum)
    {
      var ent := BuildFragment(name, part, sum);
      out := out + [ent];
      part := part - 1;
    }
  }

  /** One fragment: five units, then six, then two (make_fat.py:81-94). */
  method BuildFragment(name: Name, part: nat, sum: byte) returns (ent: Entry)
    requires 1 <= part <= SlotCount(name) && Numbered(name)
    ensures Fragment(ent, name, part, sum)
  {
    ent := Zeros(32)[0 := Ordinal(name, part)][11 := ATTR_LFN][13 := sum];
    for j := 0 to 13
      invariant ent[0] == Ordinal(name, part)
      invariant ent[11] == ATTR_LFN && ent[12] == 0 && ent[13] == sum && ent[26] == 0 && ent[27] == 0
      invariant forall i :: 0 <= i < j ==> R16(ent, UnitAt(i)) == UnitOf(name, (part - 1) * 13 + i)
    {
      ghost var was := ent;
      ent := PutUnit(ent, j, UnitOf(name, (part - 1) * 13 + j));
      forall i | 0 <= i < j ensures R16(ent, UnitAt(i)) == R16(was, UnitAt(i)) { UnitsApart(i, j); }
    }
  }

  /** Store one unit. */
  method PutUnit(e: Entry, j: nat, u: nat) returns (r: Entry)
    requires j < 13 && u < 0x10000
    ensures R16(r, UnitAt(j)) == u && forall i :: 0 <= i < 32 && i != UnitAt(j) && i != UnitAt(j) + 1 ==> r[i] == e[i]
  {
    r := W16(e, UnitAt(j), u);
  }

  lemma UnitsApart(i: nat, j: nat)
    requires i < j < 13
    ensures UnitAt(i) + 1 < UnitAt(j) && UnitAt(j) !in {0, 11, 12, 13, 26, 27}
        && UnitAt(j) + 1 !in {0, 11, 12, 13, 26, 27}
  {
  }

  // ---------------------------------------------------------------- reading them back

  /** The first `n` characters of a name, no more than 79. */
  function Got(name: Name, n: nat): (r: Name)
    ensures |r| < NAME_MAX && r <= name
  {
    var m := if n < |name| then n else |name|;
    if m < NAME_MAX then name[..m] else name[..NAME_MAX - 1]
  }

  /** Unit `k` appends character `k` of the name, while there is one and it fits. */
  lemma CharGot(name: Name, e: Entry, j: nat, k: nat)
    requires Printable(name) && j < 13 && R16(e, UnitAt(j)) == UnitOf(name, k)
    ensures LfnChar(Got(name, k), NAME_MAX, e[UnitAt(j)], e[UnitAt(j) + 1]) == Got(name, k + 1)
  {
    var lo, hi := e[UnitAt(j)], e[UnitAt(j) + 1];
    assert lo as int + 0x100 * hi as int == UnitOf(name, k);
    if k < |name| {
      assert hi == 0 && lo == name[k];
      if k + 1 < NAME_MAX { assert name[..k] + [name[k]] == name[..k+1]; }
    } else if k == |name| {
      assert lo == 0 && hi == 0;
    } else {
      assert lo == 255 && hi == 255;
    }
  }

  /** A fragment appends its thirteen units. */
  lemma {:induction false} PartGot(name: Name, e: Entry, part: nat, sum: byte, j: nat)
    requires Printable(name) && Fragment(e, name, part, sum) && j <= 13
    ensures AddUnits(Got(name, (part - 1) * 13 + j), e, j, NAME_MAX) == Got(name, part * 13)
    decreases 13 - j
  {
    hide LfnChar, R16, Got;
    if j < 13 {
      CharGot(name, e, j, (part - 1) * 13 + j);
      PartGot(name, e, part, sum, j + 1);
    }
  }

  lemma {:induction false} PartsGot(parts: seq<Entry>, name: Name, sum: byte, n: nat)
    requires Printable(name) && Fragments(parts, name, sum) && n <= |parts|
    ensures DecodeParts(parts, n, Got(name, (|parts| - n) * 13), NAME_MAX) == Got(name, |parts| * 13)
  {
    hide AddUnits, Got;
    if n > 0 {
      PartGot(name, parts[n-1], |parts| - (n - 1), sum, 0);
      PartsGot(parts, name, sum, n - 1);
    }
  }

  /** A printable name is read back whole exactly when it has at most 79 characters; it takes at most 7 fragments. */
  lemma LongNameRoundTrip(parts: seq<Entry>, name: Name, sum: byte)
    requires Printable(name) && Fragments(parts, name, sum)
    ensures LongName(parts) == name <==> |name| < NAME_MAX
    ensures LongName(parts) == Got(name, |name|)
    ensures |name| < NAME_MAX ==> |parts| <= 7
  {
    PartsGot(parts, name, sum, |parts|);
  }

  /** Fragments lie in the slots from `a` on, with their entry behind them. */
  ghost predicate LiesAt(slots: Slots, a: nat, parts: seq<Entry>) {
    && a + |parts| < |slots| && slots[a..a + |parts|] == parts
    && (a == 0 || !IsLfn(slots[a-1])) && Dirs.Live(slots[a + |parts|])
  }

  lemma {:induction false} PendGot(slots: Slots, a: nat, parts: seq<Entry>, name: Name, sum: byte, n: nat)
    requires LiesAt(slots, a, parts) && Fragments(parts, name, sum) && |parts| <= 8 && n <= |parts|
    ensures PendAt(slots, a + n) == parts[..n]
  {
    if n > 0 {
      PendGot(slots, a, parts, name, sum, n - 1);
      assert slots[a + n - 1] == slots[a..a + |parts|][n - 1] == parts[n - 1];
      assert Fragment(parts[n - 1], name, |parts| - (n - 1), sum);
      assert parts[..n-1] + [parts[n-1]] == parts[..n];
    }
  }

  /**
   * A file stored under a printable name of 1 to 79 characters answers to that name: lookup
   * collects its fragments, decodes them to the name, and reports it.
   */
  lemma LongNameFound(slots: Slots, a: nat, parts: seq<Entry>, name: Name, sum: byte)
    requires Printable(name) && 1 <= |name| < NAME_MAX && Fragments(parts, name, sum) && LiesAt(slots, a, parts)
    ensures var i := a + |parts|; Matches(slots, i, name) && InfoAt(slots, i).name == name
  {
    hide DecodeParts, PendAt, Dotted, Dirs.Live;
    LongNameRoundTrip(parts, name, sum);
    PendGot(slots, a, parts, name, sum, |parts|);
    assert parts[..|parts|] == parts;
  }
}
