/**
 * Directory entries, long-name fragments, lookup by name, and how the 32-byte
 * slots of a directory lie over its cluster chain (kernel/src/fat.c:456-645, 743-775).
 */
module Dirs {
  import opened Options
  import opened Bytes
  import opened Names

  const ATTR_ARC: byte := 0x20
  const ATTR_DIR: byte := 0x10
  const ATTR_VOL: byte := 0x08
  const ATTR_LFN: byte := 0x0F
  const GONE: byte := 0xE5
  const MAX_SLOTS: nat := 4096
  const NAME_MAX: nat := 80

  type Entry = s: seq<byte> | |s| == 32 witness seq(32, _ => 0)

  datatype Info = Info(name: Name, dir: bool, size: nat, cluster: nat)

  predicate Ended(e: Entry) { e[0] == 0 }
  predicate Gone(e: Entry) { e[0] == GONE }
  predicate FreeSlot(e: Entry) { Ended(e) || Gone(e) }
  predicate IsLfn(e: Entry) { !FreeSlot(e) && e[11] == ATTR_LFN }
  predicate IsDir(e: Entry) { e[11] / 16 % 2 == 1 }
  /** Neither free, nor a long-name fragment, nor a volume label. */
  predicate Live(e: Entry) { !FreeSlot(e) && e[11] != ATTR_LFN && e[11] / 8 % 2 == 0 }

  function EntClus(e: Entry): nat { R16(e, 20) * 0x10000 + R16(e, 26) }
  function EntSize(e: Entry): nat { R32(e, 28) }

  /** `e` with another first cluster and size. */
  function Pointing(e: Entry, clus: nat, size: nat): (r: Entry)
    requires clus < 0x1_0000_0000 && size < 0x1_0000_0000
    ensures EntClus(r) == clus && EntSize(r) == size
    ensures r[..12] == e[..12]
  {
    W32(W16(W16(e, 20, clus / 0x10000), 26, clus % 0x10000), 28, size)
  }

  /** A fresh entry for `name` (dir_add). */
  function NewEntry(name: Name, attr: byte, clus: nat, size: nat): (r: Entry)
    requires clus < 0x1_0000_0000 && size < 0x1_0000_0000
  {
    Pointing(Short(name) + [attr] + Zeros(20), clus, size)
  }

  lemma NewEntryFields(name: Name, attr: byte, clus: nat, size: nat)
    requires clus < 0x1_0000_0000 && size < 0x1_0000_0000 && name != [] && attr in {ATTR_ARC, ATTR_DIR}
    ensures var e := NewEntry(name, attr, clus, size);
            && EntClus(e) == clus && EntSize(e) == size && Dotted(e) == Dotted(Short(name))
            && Live(e) && IsDir(e) == (attr == ATTR_DIR)
  {
    hide Short, Dotted, Pointing;
    var e := NewEntry(name, attr, clus, size);
    var raw: Entry := Short(name) + [attr] + Zeros(20);
    Prefix12(e, raw);
    assert raw[..11] == Short(name);
    DottedOf(raw, Short(name));
    DottedOf(e, raw);
    FirstByte(name);
  }

  lemma Prefix12(a: Entry, b: Entry)
    requires a[..12] == b[..12]
    ensures a[0] == b[0] && a[11] == b[11] && a[..11] == b[..11]
  {
    assert a[..12][0] == b[..12][0] && a[..12][11] == b[..12][11];
    assert a[..11] == a[..12][..11] && b[..11] == b[..12][..11];
  }

  lemma DottedOf(a: seq<byte>, b: seq<byte>)
    requires |a| >= 11 && |b| >= 11 && a[..11] == b[..11]
    ensures Dotted(a) == Dotted(b)
  {
    assert a[..8] == a[..11][..8] && b[..8] == b[..11][..8];
    assert a[8..11] == a[..11][8..11] && b[8..11] == b[..11][8..11];
  }

  /** Entries that agree up to the attribute byte are alike to every lookup. */
  lemma SameName(a: Entry, b: Entry)
    requires a[..12] == b[..12]
    ensures Live(a) == Live(b) && IsLfn(a) == IsLfn(b) && IsDir(a) == IsDir(b) && Dotted(a) == Dotted(b)
    ensures Ended(a) == Ended(b) && Gone(a) == Gone(b)
  {
    Prefix12(a, b);
    DottedOf(a, b);
  }

  /** No name folds to a first byte that marks a free slot. */
  lemma FirstByte(name: Name)
    requires name != []
    ensures Short(name)[0] != 0 && Short(name)[0] != GONE
  {
    if name != [DOT] && name != [DOT, DOT] {
      var stem := Stem(name);
      assert Short(name)[0] == if stem == [] then SPACE else stem[0];
    }
  }

  // ---------------------------------------------------------------- long names

  /** lfn_char: one UTF-16 unit (fat.c:456-468). */
  function LfnChar(dst: Name, max: nat, lo: byte, hi: byte): Name {
    if |dst| + 1 >= max || (lo == 0xFF && hi == 0xFF) || (lo == 0 && hi == 0) then dst
    else dst + [if hi == 0 && 32 <= lo < 127 then lo else 63]
  }

  /** Where the 13 units of a fragment lie. */
  function UnitAt(j: nat): nat
    requires j < 13
    ensures UnitAt(j) + 1 < 32
  {
    if j < 5 then 1 + 2 * j else if j < 11 then 4 + 2 * j else 6 + 2 * j
  }

  function AddUnits(dst: Name, e: Entry, j: nat, max: nat): Name
    requires j <= 13
    decreases 13 - j
  {
    if j == 13 then dst
    else AddUnits(LfnChar(dst, max, e[UnitAt(j)], e[UnitAt(j) + 1]), e, j + 1, max)
  }

  /** decode_lfn over the first `n` fragments, the last one first (fat.c:471-492). */
  function DecodeParts(parts: seq<Entry>, n: nat, dst: Name, max: nat): Name
    requires n <= |parts|
  {
    if n == 0 then dst
    else DecodeParts(parts, n - 1, AddUnits(dst, parts[n-1], 0, max), max)
  }

  function LongName(parts: seq<Entry>): Name { DecodeParts(parts, |parts|, [], NAME_MAX) }

  method DecodeLfn(parts: seq<Entry>) returns (out: Name)
    ensures out == LongName(parts)
  {
    hide AddUnits;
    out := [];
    var i := |parts|;
    while i > 0
      invariant 0 <= i <= |parts|
      invariant DecodeParts(parts, i, out, NAME_MAX) == LongName(parts)
    {
      i := i - 1;
      out := AddFragment(out, parts[i]);
    }
  }

  method AddFragment(dst: Name, e: Entry) returns (out: Name)
    ensures out == AddUnits(dst, e, 0, NAME_MAX)
  {
    out := dst;
    for j := 0 to 13
      invariant AddUnits(out, e, j, NAME_MAX) == AddUnits(dst, e, 0, NAME_MAX)
    {
      out := LfnChar(out, NAME_MAX, e[UnitAt(j)], e[UnitAt(j) + 1]);
    }
  }

  // ---------------------------------------------------------------- lookup

  type Slots = seq<Entry>

  /** The fragments collected when the scan arrives at slot `i`. */
  function PendAt(slots: Slots, i: nat): (r: seq<Entry>)
    requires i <= |slots|
    ensures |r| <= 8
  {
    if i == 0 then []
    else if IsLfn(slots[i-1]) then
      var p := PendAt(slots, i - 1);
      if |p| < 8 then p + [slots[i-1]] else p
    else []
  }

  function LongAt(slots: Slots, i: nat): Name
    requires i <= |slots|
  {
    LongName(PendAt(slots, i))
  }

  predicate Matches(slots: Slots, i: nat, name: Name)
    requires i < |slots|
  {
    && Live(slots[i])
    && (NameEq(Dotted(slots[i]), name) || (LongAt(slots, i) != [] && NameEq(LongAt(slots, i), name)))
  }

  /** The slot dir_find stops at: the first match, before any end mark, among the first 4096. */
  function FindFrom(slots: Slots, name: Name, i: nat): (r: Option<nat>)
    requires i <= |slots|
    ensures r.Some? ==>
              && i <= r.value < |slots| && r.value < MAX_SLOTS && Matches(slots, r.value, name)
              && (forall j :: i <= j <= r.value ==> !Ended(slots[j]))
              && (forall j :: i <= j < r.value ==> !Matches(slots, j, name))
    ensures r.None? ==> forall k :: i <= k < |slots| && k < MAX_SLOTS && Matches(slots, k, name) ==>
              exists j :: i <= j <= k && Ended(slots[j])
    decreases |slots| - i
  {
    hide Dotted, LongName, PendAt, NameEq, Live;
    if i == |slots| || i >= MAX_SLOTS || Ended(slots[i]) then None
    else if Matches(slots, i, name) then Some(i)
    else FindFrom(slots, name, i + 1)
  }

  /** One slot of the scan: nothing found at `i`. */
  lemma FindNext(slots: Slots, name: Name, i: nat)
    requires i < |slots| && i < MAX_SLOTS && !Ended(slots[i]) && !Matches(slots, i, name)
    ensures FindFrom(slots, name, i) == FindFrom(slots, name, i + 1)
  {
  }

  lemma PendNone(slots: Slots)
    ensures PendAt(slots, 0) == []
  {
  }

  /** The fragments collected after slot `i`. */
  lemma PendNext(slots: Slots, i: nat)
    requires i < |slots|
    ensures PendAt(slots, i + 1) ==
              if IsLfn(slots[i]) then (if |PendAt(slots, i)| < 8 then PendAt(slots, i) + [slots[i]]
                else PendAt(slots, i))
              else []
  {
  }

  function Find(slots: Slots, name: Name): Option<nat> { FindFrom(slots, name, 0) }

  function InfoAt(slots: Slots, i: nat): Info
    requires i < |slots|
  {
    var long := LongAt(slots, i);
    Info(if long != [] then long else Dotted(slots[i]), IsDir(slots[i]), EntSize(slots[i]), EntClus(slots[i]))
  }

  /** The first slot, if any, where the scan meets an end mark or a match. */
  lemma FindIs(slots: Slots, name: Name, i: nat)
    requires i < |slots| && i < MAX_SLOTS && Matches(slots, i, name)
    requires forall j :: 0 <= j <= i ==> !Ended(slots[j])
    requires forall j :: 0 <= j < i ==> !Matches(slots, j, name)
    ensures Find(slots, name) == Some(i)
  {
  }

  /** Once a slot is an end mark, so are all that follow: what is written after it stays hidden. */
  ghost predicate Tidy(slots: Slots) {
    forall i, j :: 0 <= i < j < |slots| && Ended(slots[i]) ==> Ended(slots[j])
  }

  lemma {:induction false} PendPrefix(a: Slots, b: Slots, i: nat)
    requires i <= |a| && i <= |b| && a[..i] == b[..i]
    ensures PendAt(a, i) == PendAt(b, i)
  {
    if i > 0 {
      assert a[i-1] == a[..i][i-1] == b[i-1];
      assert a[..i-1] == a[..i][..i-1] == b[..i-1];
      PendPrefix(a, b, i - 1);
    }
  }

  /** Fragments do not carry over a slot that is not one. */
  lemma {:induction false} PendAfter(a: Slots, b: Slots, s: nat, i: nat)
    requires s < i <= |a| == |b| && a[s+1..] == b[s+1..] && !IsLfn(a[s]) && !IsLfn(b[s])
    ensures PendAt(a, i) == PendAt(b, i)
  {
    if i > s + 1 {
      assert a[i-1] == a[s+1..][i-s-2] == b[i-1];
      PendAfter(a, b, s, i - 1);
    }
  }

  /** Changing one slot, neither before nor after a fragment, changes no other slot's matches. */
  lemma MatchesElsewhere(slots: Slots, s: nat, e: Entry, i: nat, name: Name)
    requires s < |slots| && i < |slots| && i != s && !IsLfn(slots[s]) && !IsLfn(e)
    ensures Matches(slots[s := e], i, name) == Matches(slots, i, name)
    ensures InfoAt(slots[s := e], i) == InfoAt(slots, i)
  {
    var b := slots[s := e];
    if i < s { PendPrefix(slots, b, i); } else { PendAfter(slots, b, s, i); }
  }

  /** Overwriting a live entry's cluster and size: every name finds the slot it found before. */
  lemma FindRewrite(slots: Slots, s: nat, e: Entry, name: Name)
    requires s < |slots| && Live(slots[s]) && e[..12] == slots[s][..12]
    ensures Find(slots[s := e], name) == Find(slots, name)
    ensures LongAt(slots[s := e], s) == LongAt(slots, s)
  {
    var b := slots[s := e];
    SameName(e, slots[s]);
    PendPrefix(slots, b, s);
    forall i | 0 <= i < |slots|
      ensures Matches(b, i, name) == Matches(slots, i, name) && Ended(b[i]) == Ended(slots[i]) {
      if i != s { MatchesElsewhere(slots, s, e, i, name); }
    }
    FindSame(slots, b, name, 0);
  }

  lemma {:induction false} FindSame(a: Slots, b: Slots, name: Name, i: nat)
    requires |a| == |b| && i <= |a|
    requires forall j :: i <= j < |a| ==> Matches(a, j, name) == Matches(b, j, name) && Ended(a[j]) == Ended(b[j])
    ensures FindFrom(a, name, i) == FindFrom(b, name, i)
    decreases |a| - i
  {
    hide Matches, Ended;
    if i < |a| { FindSame(a, b, name, i + 1); }
  }

  /** Zeroed slots at the end are not seen. */
  lemma {:induction false} FindGrown(slots: Slots, more: Slots, name: Name, i: nat)
    requires i <= |slots| && forall j :: 0 <= j < |more| ==> Ended(more[j])
    ensures FindFrom(slots + more, name, i) == FindFrom(slots, name, i)
    decreases |slots| - i
  {
    hide Matches, Ended;
    if i < |slots| {
      MatchesGrown(slots, more, name, i);
      FindGrown(slots, more, name, i + 1);
    }
  }

  lemma MatchesGrown(slots: Slots, more: Slots, name: Name, i: nat)
    requires i < |slots|
    ensures Matches(slots + more, i, name) == Matches(slots, i, name)
  {
    hide PendAt, Live, Dotted, LongName, NameEq;
    assert (slots + more)[..i] == slots[..i];
    PendPrefix(slots + more, slots, i);
  }

  /** A new live entry in the first free slot is found by the names it matches that were not found before. */
  lemma FindAdded(slots: Slots, s: nat, e: Entry, name: Name)
    requires s < |slots| && s < MAX_SLOTS && FreeSlot(slots[s]) && Live(e) && Tidy(slots)
    requires forall j :: 0 <= j < s ==> !FreeSlot(slots[j])
    ensures var b := slots[s := e];
            Find(b, name) == if Matches(b, s, name) && Find(slots, name).None? then Some(s)
                             else if Matches(b, s, name) && Find(slots, name).value > s then Some(s)
                             else Find(slots, name)
  {
    var b := slots[s := e];
    forall i | 0 <= i < |slots| && i != s
      ensures Matches(b, i, name) == Matches(slots, i, name) && Ended(b[i]) == Ended(slots[i])
    {
      MatchesElsewhere(slots, s, e, i, name);
    }
    match Find(slots, name)
    case Some(k) =>
      assert k != s;
      if k < s { FindIs(b, name, k); }
      else if Matches(b, s, name) { FindIs(b, name, s); }
      else { FindIs(b, name, k); }
    case None =>
      forall i | 0 <= i < s && i < MAX_SLOTS ensures !Matches(slots, i, name) {
        assert forall j :: 0 <= j <= i ==> !Ended(slots[j]);
      }
      if Matches(b, s, name) { FindIs(b, name, s); }
  }

  /** Marking an entry deleted changes no lookup that did not end there. */
  lemma FindRemoved(slots: Slots, s: nat, name: Name)
    requires s < |slots| && Live(slots[s]) && Find(slots, name) != Some(s)
    ensures Find(slots[s := slots[s][0 := GONE]], name) == Find(slots, name)
  {
    var b := slots[s := slots[s][0 := GONE]];
    forall i | 0 <= i < |slots| && i != s ensures Matches(b, i, name) == Matches(slots, i, name) {
      MatchesElsewhere(slots, s, slots[s][0 := GONE], i, name);
    }
    if Find(slots, name).Some? {
      FindIs(b, name, Find(slots, name).value);
    } else {
      forall k | 0 <= k < |b| && k < MAX_SLOTS && Matches(b, k, name) ensures exists j :: 0 <= j <= k && Ended(b[j]) {
        var j :| 0 <= j <= k && Ended(slots[j]);
        assert Ended(b[j]);
      }
    }
  }

  // ---------------------------------------------------------------- slots over clusters

  /** The slots of one cluster. */
  function SlotsOf(clus: seq<byte>): (r: Slots)
    ensures |r| == |clus| / 32
  {
    seq(|clus| / 32, i requires 0 <= i < |clus| / 32 => clus[i * 32 .. i * 32 + 32])
  }

  predicate PerOk(per: nat) { per in {16, 32, 64, 128} }

  ghost predicate Sized(data: seq<seq<byte>>, ch: seq<nat>, per: nat) {
    PerOk(per) && forall i :: 0 <= i < |ch| ==> ch[i] < |data| && |data[ch[i]]| == per * 32
  }

  /** The slots of a directory whose chain is `ch`. */
  ghost function DirSlots(data: seq<seq<byte>>, ch: seq<nat>, per: nat): (r: Slots)
    requires Sized(data, ch, per)
    ensures |r| == |ch| * per
  {
    if ch == [] then [] else SlotsOf(data[ch[0]]) + DirSlots(data, ch[1..], per)
  }

  lemma SlotDiv(i: nat, per: nat, n: nat)
    requires PerOk(per) && i >= per && n > 0
    ensures (n - 1) * per == n * per - per
    ensures (i - per) / per == i / per - 1 && (i - per) % per == i % per && i / per >= 1
  {
  }

  lemma SlotMod(i: nat, per: nat, n: nat)
    requires PerOk(per) && i < n * per
    ensures i / per < n && i % per < per
    ensures i < per ==> i / per == 0 && i % per == i
  {
  }

  lemma SlotBound(i: nat, per: nat, n: nat)
    requires PerOk(per)
    ensures i / per < n <==> i < n * per
  {
  }

  /** Overwriting 32 bytes of a cluster overwrites one of its slots. */
  lemma SlotsOfPut(c: seq<byte>, c': seq<byte>, q: nat, e: Entry)
    requires |c'| == |c| && q * 32 + 32 <= |c|
    requires forall b :: 0 <= b < |c| ==> c'[b] == if q * 32 <= b < q * 32 + 32 then e[b - q * 32] else c[b]
    ensures SlotsOf(c') == SlotsOf(c)[q := e]
  {
    forall i | 0 <= i < |c| / 32 ensures SlotsOf(c')[i] == SlotsOf(c)[q := e][i] {
      if i == q { assert c'[i * 32 .. i * 32 + 32] == e; }
      else { assert c'[i * 32 .. i * 32 + 32] == c[i * 32 .. i * 32 + 32]; }
    }
  }

  /** Slot `i` is slot `i % per` of cluster number `i / per` of the chain. */
  lemma {:induction false} SlotPlace(data: seq<seq<byte>>, ch: seq<nat>, per: nat, i: nat)
    requires Sized(data, ch, per) && i < |ch| * per
    ensures i / per < |ch| && i % per < per
    ensures DirSlots(data, ch, per)[i] == SlotsOf(data[ch[i / per]])[i % per]
  {
    hide SlotsOf;
    SlotMod(i, per, |ch|);
    if i >= per {
      SlotDiv(i, per, |ch|);
      SlotPlace(data, ch[1..], per, i - per);
      assert DirSlots(data, ch, per)[i] == DirSlots(data, ch[1..], per)[i - per];
      assert ch[1..][(i - per) / per] == ch[i / per];
    }
  }

  lemma SetLeft(a: Slots, b: Slots, k: nat, e: Entry)
    requires k < |a|
    ensures (a + b)[k := e] == a[k := e] + b
  {
  }

  lemma SetRight(a: Slots, b: Slots, k: nat, e: Entry)
    requires k < |b|
    ensures (a + b)[|a| + k := e] == a + b[k := e]
  {
  }

  /** Rewriting one slot of one cluster rewrites one slot of the directory. */
  lemma {:induction false} SlotPut(data: seq<seq<byte>>, ch: seq<nat>, per: nat, i: nat, c: seq<byte>, e: Entry)
    requires Sized(data, ch, per) && i < |ch| * per && i / per < |ch|
    requires forall a, b :: 0 <= a < b < |ch| ==> ch[a] != ch[b]
    requires |c| == per * 32 && i % per < per && SlotsOf(c) == SlotsOf(data[ch[i / per]])[i % per := e]
    ensures DirSlots(data[ch[i / per] := c], ch, per) == DirSlots(data, ch, per)[i := e]
  {
    hide SlotsOf;
    SlotMod(i, per, |ch|);
    var data' := data[ch[i / per] := c];
    if i >= per {
      SlotDiv(i, per, |ch|);
      assert ch[1..][(i - per) / per] == ch[i / per];
      SlotPut(data, ch[1..], per, i - per, c, e);
      assert data'[ch[0]] == data[ch[0]];
      SetRight(SlotsOf(data[ch[0]]), DirSlots(data, ch[1..], per), i - per, e);
    } else {
      SetLeft(SlotsOf(data[ch[0]]), DirSlots(data, ch[1..], per), i, e);
      SameSlots(data, data', ch[1..], per);
    }
  }

  lemma {:induction false} SameSlots(data: seq<seq<byte>>, data': seq<seq<byte>>, ch: seq<nat>, per: nat)
    requires Sized(data, ch, per) && |data'| == |data|
    requires forall i :: 0 <= i < |ch| ==> data'[ch[i]] == data[ch[i]]
    ensures DirSlots(data', ch, per) == DirSlots(data, ch, per)
  {
    if ch != [] {
      assert forall i :: 0 <= i < |ch[1..]| ==> ch[1..][i] == ch[i+1];
      SameSlots(data, data', ch[1..], per);
    }
  }

  lemma {:induction false} SlotsAppend(data: seq<seq<byte>>, ch: seq<nat>, per: nat, c: nat)
    requires c < |data| && Sized(data, ch + [c], per) && Sized(data, ch, per)
    ensures DirSlots(data, ch + [c], per) == DirSlots(data, ch, per) + SlotsOf(data[c])
  {
    if ch != [] {
      assert (ch + [c])[1..] == ch[1..] + [c];
      SlotsAppend(data, ch[1..], per, c);
    } else {
      assert (ch + [c])[1..] == [];
    }
  }

  /** The root directory holds a volume label and end marks. */
  ghost predicate FreshRoot(s: Slots) {
    |s| >= 1 && !FreeSlot(s[0]) && !Live(s[0]) && !IsLfn(s[0]) && forall i :: 1 <= i < |s| ==> Ended(s[i])
  }
}
