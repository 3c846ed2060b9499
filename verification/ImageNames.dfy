/**
 * The names the image builder gives a file: a short one, and long-name fragments when the short
 * one would lose something (tools/make_fat.py:29-72, 399-411). Names are ASCII.
 */
module ImageNames {
  import opened Bytes
  import opened Names
  import opened Dirs
  import opened LongNames
  import opened Paths
  import opened Runs

  const TILDE: byte := 126
  const ONE: byte := 49

  /** The part before the last dot, folded, and the part behind it. */
  function FullStem(n: Name): (r: Name)
    ensures SPACE !in r && |r| == LastDot(n)
  {
    FoldAll(n[..LastDot(n)])
  }

  function FullExt(n: Name): (r: Name)
    ensures SPACE !in r && |r| == if LastDot(n) == |n| then 0 else |n| - LastDot(n) - 1
  {
    if LastDot(n) == |n| then [] else FoldAll(n[LastDot(n) + 1..])
  }

  predicate TooLong(n: Name) { |FullStem(n)| > 8 || |FullExt(n)| > 3 }

  function Padded8(stem: Name, ext: Name): (r: Name)
    requires |stem| <= 8 && |ext| <= 3
    ensures |r| == 11
  {
    (stem + Spaces(8 - |stem|)) + (ext + Spaces(3 - |ext|))
  }

  /** _short_name: the 8.3 spelling, with a numeric tail when it is cut (make_fat.py:29-49). */
  function ShortName(name: Name): (r: Name)
    ensures |r| == 11
  {
    var n := NoSpaces(name);
    if DotName(n) then n + Spaces(11 - |n|)
    else if TooLong(n) then Padded8(Take(FullStem(n), 6) + [TILDE, ONE], Take(FullExt(n), 3))
    else Padded8(FullStem(n), FullExt(n))
  }

  /** What a short name may hold without a long one (make_fat.py:62). */
  predicate Plain83(c: byte) { Allowed(c) || c == TILDE }

  /** _needs_lfn: the name cannot be stored as an 8.3 entry (make_fat.py:52-63). */
  predicate NeedsLfn(name: Name) {
    var d := LastDot(name);
    && !DotName(name)
    && (d > 8 || (d < |name| && |name| - d - 1 > 3) || d == 0 || SPACE in name
        || exists i :: 0 <= i < |name| && i != d && !Plain83(name[i]))
  }

  lemma {:induction false} NoSpacesSame(s: Name)
    requires SPACE !in s
    ensures NoSpaces(s) == s
  {
    if s != [] { NoSpacesSame(s[..|s|-1]); }
  }

  /** A name that needs no long one is spelt as the driver spells it. */
  lemma ShortIsShort(name: Name)
    requires !NeedsLfn(name)
    ensures ShortName(name) == Short(name)
  {
    hide FoldAll;
    if !DotName(name) {
      NoSpacesSame(name);
      var d := LastDot(name);
      assert Take(name[..d], 8) == name[..d];
      if d < |name| { assert Take(name[d+1..], 3) == name[d+1..]; }
    } else {
      NoSpacesSame(name);
    }
  }

  lemma DottedPadded(stem: Name, ext: Name)
    requires |stem| <= 8 && |ext| <= 3 && SPACE !in stem && SPACE !in ext
    ensures Dotted(Padded8(stem, ext)) == if ext == [] then stem else stem + [DOT] + ext
  {
    hide NoSpaces;
    var r := Padded8(stem, ext);
    assert r[..8] == stem + Spaces(8 - |stem|) && r[8..11] == ext + Spaces(3 - |ext|);
    NoSpacesPadded(stem, 8 - |stem|);
    NoSpacesPadded(ext, 3 - |ext|);
  }

  /** No short name marks its slot free, and none but a dot name is spelt like one. */
  lemma ShortNameStarts(name: Name)
    ensures ShortName(name)[0] != 0 && ShortName(name)[0] != GONE
    ensures !DotName(NoSpaces(name)) ==> !DotName(Dotted(ShortName(name)))
  {
    hide NoSpaces, Dotted, FoldAll, LastDot;
    var n := NoSpaces(name);
    if !DotName(n) {
      var stem, ext := FullStem(n), FullExt(n);
      if TooLong(n) {
        var cut := Take(stem, 6) + [TILDE, ONE];
        DottedPadded(cut, Take(ext, 3));
        assert Dotted(ShortName(name))[|Take(stem, 6)|] == TILDE;
      } else {
        DottedPadded(stem, ext);
        if ext != [] { assert (stem + [DOT] + ext)[|stem| + 1] == ext[0]; }
        if stem != [] { assert Dotted(ShortName(name))[0] == stem[0] != DOT; }
      }
    }
  }

  /** A dot name is spelt as it is. */
  lemma ShortNameDots(name: Name)
    requires DotName(NoSpaces(name))
    ensures DotName(Dotted(ShortName(name)))
  {
    hide NoSpaces, Dotted;
    assert ShortName(name) == Short(NoSpaces(name));
    DotNames();
  }

  /** _lfn_checksum (make_fat.py:66-72). */
  method Checksum(short: Name) returns (s: byte)
    ensures s == SumOf(short)
  {
    s := 0;
    for i := 0 to |short|
      invariant s == SumOf(short[..i])
    {
      assert short[..i+1][..i] == short[..i];
      s := ((s as int % 2 * 128 + s as int / 2) + short[i] as int) % 256;
    }
    assert short[..|short|] == short;
  }

  /** Each byte added to the sum turned right by one bit. */
  function SumOf(short: Name): byte {
    if short == [] then 0
    else
      var s := SumOf(short[..|short|-1]);
      ((s as int % 2 * 128 + s as int / 2) + short[|short|-1] as int) % 256
  }

  // ---------------------------------------------------------------- records

  /** The 8.3 entry. */
  function ShortEntry(name: Name, attr: byte, clus: nat, size: nat): (r: Entry)
    requires clus < 0x1_0000_0000 && size < 0x1_0000_0000
  {
    Pointing(ShortName(name) + [attr] + Zeros(20), clus, size)
  }

  lemma ShortEntryFields(name: Name, attr: byte, clus: nat, size: nat)
    requires clus < 0x1_0000_0000 && size < 0x1_0000_0000 && attr in {ATTR_ARC, ATTR_DIR}
    ensures var e := ShortEntry(name, attr, clus, size);
            && EntClus(e) == clus && EntSize(e) == size && Dotted(e) == Dotted(ShortName(name))
            && Dirs.Live(e) && !Gone(e) && IsDir(e) == (attr == ATTR_DIR)
            && (!DotName(NoSpaces(name)) ==> !DotName(Dotted(e)))
  {
    hide Dotted, NoSpaces, ShortName, R16, R32, W16, W32;
    var raw: Entry := ShortName(name) + [attr] + Zeros(20);
    var e := ShortEntry(name, attr, clus, size);
    assert e[..12] == raw[..12];
    Prefix12(e, raw);
    assert raw[..11] == ShortName(name);
    DottedOf(e, ShortName(name));
    ShortNameStarts(name);
  }

  /** The records of a name, as they lie in its directory. */
  ghost predicate RecordsOf(recs: seq<Entry>, name: Name, attr: byte, clus: nat, size: nat)
    requires clus < 0x1_0000_0000 && size < 0x1_0000_0000
  {
    && recs != [] && recs[|recs|-1] == ShortEntry(name, attr, clus, size)
    && if NeedsLfn(name) then Fragments(recs[..|recs|-1], name, SumOf(ShortName(name))) else |recs| == 1
  }

  /** A name that needs no long one has at most twelve characters. */
  lemma ShortIsNumbered(name: Name)
    requires !NeedsLfn(name)
    ensures |name| <= 12 && Numbered(name) && Legible(name)
  {
  }

  /** Build them, if the fragments can be numbered (make_fat.py:401-411). */
  method MakeRecords(name: Name, attr: byte, clus: nat, size: nat) returns (ok: bool, recs: seq<Entry>)
    requires clus < 0x1_0000_0000 && size < 0x1_0000_0000
    ensures ok <==> Numbered(name)
    ensures ok ==> RecordsOf(recs, name, attr, clus, size)
  {
    hide ShortName, NeedsLfn, Fragments, SumOf;
    var short := ShortName(name);
    ok, recs := true, [];
    if NeedsLfn(name) {
      var sum := Checksum(short);
      ok, recs := LfnEntries(name, sum);
      if !ok {
        return;
      }
    } else {
      ShortIsNumbered(name);
    }
    var ent: Entry := short + [attr] + Zeros(20);
    ent := W16(ent, 20, clus / 0x10000);
    ent := W16(ent, 26, clus % 0x10000);
    ent := W32(ent, 28, size);
    assert (recs + [ent])[..|recs|] == recs;
    recs := recs + [ent];
  }

  lemma FragmentIsLfn(e: Entry, name: Name, part: nat, sum: byte)
    requires Fragment(e, name, part, sum) && part <= SlotCount(name) && Legible(name)
    ensures IsLfn(e) && !Gone(e)
  {
    LegibleExact(name);
  }

  /** Fragments and a live entry: a run of records. */
  lemma RecordsAreRecords(recs: seq<Entry>, name: Name, attr: byte, clus: nat, size: nat)
    requires clus < 0x1_0000_0000 && size < 0x1_0000_0000 && attr in {ATTR_ARC, ATTR_DIR} && Legible(name)
    requires RecordsOf(recs, name, attr, clus, size)
    ensures Records(recs) && !IsLfn(recs[|recs|-1]) && forall i :: 0 <= i < |recs| ==> !Gone(recs[i])
  {
    hide ShortEntry, NeedsLfn, Fragments, IsLfn, Dirs.Live, Gone, Dotted, EntClus, EntSize, IsDir, SumOf, ShortName;
    ShortEntryFields(name, attr, clus, size);
    LiveIsNoLfn(recs[|recs|-1]);
    var notes := recs[..|recs|-1];
    forall i | 0 <= i < |notes| ensures IsLfn(notes[i]) && !Gone(notes[i]) {
      PartIsLfn(notes, name, SumOf(ShortName(name)), i);
    }
    forall i | 0 <= i < |recs| - 1 ensures IsLfn(recs[i]) && !Gone(recs[i]) { assert recs[i] == notes[i]; }
  }

  lemma PartIsLfn(parts: seq<Entry>, name: Name, sum: byte, i: nat)
    requires Fragments(parts, name, sum) && i < |parts| && Legible(name)
    ensures IsLfn(parts[i]) && !Gone(parts[i])
  {
    hide Fragment;
    FragmentIsLfn(parts[i], name, |parts| - i, sum);
  }

  lemma LiveIsNoLfn(e: Entry)
    requires Dirs.Live(e)
    ensures !IsLfn(e)
  {
  }

  // ---------------------------------------------------------------- the name it answers to

  lemma {:induction false} UnitsBound(dst: Name, e: Entry, j: nat)
    requires |dst| < NAME_MAX && j <= 13
    ensures |AddUnits(dst, e, j, NAME_MAX)| < NAME_MAX
    decreases 13 - j
  {
    if j < 13 { UnitsBound(LfnChar(dst, NAME_MAX, e[UnitAt(j)], e[UnitAt(j) + 1]), e, j + 1); }
  }

  lemma {:induction false} LongBound(parts: seq<Entry>, n: nat, dst: Name)
    requires n <= |parts| && |dst| < NAME_MAX
    ensures |DecodeParts(parts, n, dst, NAME_MAX)| < NAME_MAX
  {
    hide AddUnits;
    if n > 0 {
      UnitsBound(dst, parts[n-1], 0);
      LongBound(parts, n - 1, AddUnits(dst, parts[n-1], 0, NAME_MAX));
    }
  }

  /** A few fragments in a row are all collected. */
  lemma {:induction false} PendRun(slots: Slots, a: nat, notes: seq<Entry>, n: nat)
    requires n <= |notes| <= 8 && a + |notes| <= |slots| && (a == 0 || !IsLfn(slots[a-1]))
    requires forall i :: 0 <= i < |notes| ==> slots[a + i] == notes[i] && IsLfn(notes[i])
    ensures PendAt(slots, a + n) == notes[..n]
  {
    if n > 0 {
      PendRun(slots, a, notes, n - 1);
      assert slots[a + (n - 1)] == notes[n-1];
      assert notes[..n-1] + [notes[n-1]] == notes[..n];
    }
  }

  /**
   * A printable name finds its own entry exactly when its long name fits the driver's buffer, or,
   * if it has none, when it fits 8.3: a tilde or a trailing dot is lost.
   */
  lemma AnswersToItself(slots: Slots, s: nat, recs: seq<Entry>, name: Name, attr: byte, clus: nat, size: nat)
    requires clus < 0x1_0000_0000 && size < 0x1_0000_0000 && attr in {ATTR_ARC, ATTR_DIR} && Legible(name)
    requires RecordsOf(recs, name, attr, clus, size) && Printable(name) && name != []
    requires s <= |slots| && (s == 0 || !IsLfn(slots[s-1]))
    ensures RunName(slots, s, recs, name) <==> if NeedsLfn(name) then |name| < NAME_MAX else Fits83(name)
  {
    hide ShortEntry, NeedsLfn, Fragments, Fits83, Dotted, DecodeParts, PendAt, NoSpaces, ShortName, Short;
    var f, notes := Front(slots, s, recs), recs[..|recs|-1];
    RecordsAreRecords(recs, name, attr, clus, size);
    ShortEntryFields(name, attr, clus, size);
    assert s > 0 ==> f[s-1] == slots[s-1];
    if NeedsLfn(name) {
      LongBound(PendAt(f, |f|), |PendAt(f, |f|)|, []);
      if |name| < NAME_MAX {
        LongNameRoundTrip(notes, name, SumOf(ShortName(name)));
        PendRun(f, s, notes, |notes|);
        assert notes[..|notes|] == notes && |f| == s + |notes|;
      }
    } else {
      PendRun(f, s, notes, 0);
      NoLong();
      ShortIsShort(name);
      ShortNameRoundTrip(name);
    }
  }

  /** The name leads to its own records: see AnswersToItself. */
  predicate Survives(name: Name) {
    name != [] && Printable(name) && if NeedsLfn(name) then |name| < NAME_MAX else Fits83(name)
  }

  lemma SurvivesLegible(name: Name)
    requires Survives(name)
    ensures Legible(name) && Numbered(name)
  {
    if !NeedsLfn(name) { ShortIsNumbered(name); }
  }

  lemma NoLong()
    ensures LongName([]) == []
  {
  }
}
