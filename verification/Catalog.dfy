/**
 * Lists of mkdir and add_file calls whose files can all be read back: no two entries of a directory get
 * the same short name, and a directory is spelt alike wherever it is mentioned
 * (tools/make_fat.py:314-367, tools/make_floppy.py:268-317).
 */
module Catalogs {
  import opened Options
  import opened Bytes
  import opened Names
  import opened Dirs
  import opened Trees
  import opened Wellformed
  import opened Ops
  import opened Paths
  import opened LongNames
  import opened ImageNames
  import opened ShortNames
  import opened Runs
  import opened Blobs
  import opened Builds

  /** A place in the tree: short names from the root down. */
  type Key = seq<Name>

  function Keys(parts: seq<Name>): (r: Key)
    ensures |r| == |parts| && forall i :: 0 <= i < |r| ==> r[i] == ShortName(parts[i])
  {
    seq(|parts|, i requires 0 <= i < |parts| => ShortName(parts[i]))
  }

  /** The place of the entry a call makes. */
  function FullKey(op: Op): Key { Keys(op.parts) + [ShortName(op.name)] }

  /** A name that leads to its own records, and that no spaces hide a dot name in. */
  predicate Proper(n: Name) { Survives(n) && !DotName(NoSpaces(n)) }

  /**
   * A list whose files can all be read back: names are proper, calls for the same place are both mkdir,
   * and a path spells a directory like the mkdir for its place, up to case.
   */
  ghost predicate Catalog(ops: seq<Op>) {
    && (forall i :: 0 <= i < |ops| ==> ProperOp(ops[i]))
    && (forall i, j :: 0 <= i < j < |ops| && FullKey(ops[i]) == FullKey(ops[j]) ==> ops[i].Mkdir? && ops[j].Mkdir?)
    && forall i, j, t :: 0 <= i < |ops| && 0 <= j < |ops| && 0 <= t < |ops[j].parts| ==>
         SpeltAlike(ops[i], ops[j].parts, t)
  }

  predicate ProperOp(op: Op) { Proper(op.name) && forall t :: 0 <= t < |op.parts| ==> Proper(op.parts[t]) }

  predicate SpeltAlike(op: Op, parts: seq<Name>, t: nat)
    requires t < |parts|
  {
    op.Mkdir? && FullKey(op) == Keys(parts[..t + 1]) ==> NameEq(op.name, parts[t])
  }

  // ---------------------------------------------------------------- a directory of a catalog

  predicate Dotty(slots: Slots, i: nat)
    requires i < |slots|
  {
    DotName(Dotted(slots[i])) && LongAt(slots, i) == []
  }

  /** Slot `i` is the entry that `op` makes. */
  predicate EntryOf(slots: Slots, i: nat, op: Op)
    requires i < |slots|
  {
    && Dirs.Live(slots[i]) && slots[i][..11] == ShortName(op.name)
    && LongAt(slots, i) == (if NeedsLfn(op.name) then op.name else []) && (IsDir(slots[i]) <==> op.Mkdir?)
  }

  /** One of the first `m` calls, all for this place, made the entry. */
  ghost predicate Comes(slots: Slots, i: nat, place: Key, ops: seq<Op>, m: nat)
    requires i < |slots|
  {
    exists j :: 0 <= j < m && j < |ops| && Keys(ops[j].parts) == place && EntryOf(slots, i, ops[j])
  }

  /** All entries but the dot entries come from the first `m` calls, and have short names of their own. */
  ghost predicate Orderly(slots: Slots, place: Key, ops: seq<Op>, m: nat) {
    && (forall i :: 0 <= i < |slots| && Dirs.Live(slots[i]) ==> Dotty(slots, i) || Comes(slots, i, place, ops, m))
    && forall i, j :: 0 <= i < j < |slots| && Counts(slots, i) && Counts(slots, j) ==>
         slots[i][..11] != slots[j][..11]
  }

  /** An entry, and not a dot entry. */
  predicate Counts(slots: Slots, i: nat)
    requires i < |slots|
  {
    Dirs.Live(slots[i]) && !Dotty(slots, i)
  }

  /** Every directory of the tree is such, at its place; `K` says where each directory is. */
  ghost predicate Ordered(S: Tree, root: nat, K: map<nat, Key>, ops: seq<Op>, m: nat) {
    && root in S && K.Keys == S.Keys && K[root] == []
    && (forall d :: d in S ==> Orderly(S[d], K[d], ops, m))
    && forall d: nat, i: nat :: d in S && i < |S[d]| && Dirs.Live(S[d][i]) && !Dotty(S[d], i) && IsDir(S[d][i]) ==>
         EntClus(S[d][i]) != 0 && EntClus(S[d][i]) in K && K[EntClus(S[d][i])] == K[d] + [S[d][i][..11]]
  }

  /** What well-formed and neat directories have in common. */
  ghost predicate Sober(S: Tree) { forall d :: d in S ==> Tidy(S[d]) && Neat(S[d]) && |S[d]| <= MAX_SLOTS }

  lemma NotDot(n: Name)
    requires Proper(n)
    ensures !DotName(n) && n != []
  {
    if DotName(n) { NoSpacesSame(n); }
  }

  lemma DottyMisses(slots: Slots, i: nat, x: Name)
    requires i < |slots| && Dotty(slots, i) && Proper(x)
    ensures !Matches(slots, i, x)
  {
    hide Dotted, NameEq, LongName, PendAt, Survives, NoSpaces;
    NotDot(x);
    if NameEq(Dotted(slots[i]), x) { DotsDiffer(Dotted(slots[i]), x); }
  }

  /** An entry found by a proper name has its short name. */
  lemma MatchesShort(slots: Slots, i: nat, op: Op, x: Name)
    requires i < |slots| && EntryOf(slots, i, op) && Proper(op.name) && Proper(x) && Matches(slots, i, x)
    ensures slots[i][..11] == ShortName(x)
  {
    hide Dotted, NameEq, LongAt, Survives, NoSpaces, ShortName, NeedsLfn;
    DottedOf(slots[i], ShortName(op.name));
    if NameEq(Dotted(slots[i]), x) { SpeltSame(op.name, x); } else { SameShort(op.name, x); }
  }

  /** It is found by every name equal to its own. */
  lemma MatchesOwn(slots: Slots, i: nat, op: Op, x: Name)
    requires i < |slots| && EntryOf(slots, i, op) && Proper(op.name) && NameEq(op.name, x)
    ensures Matches(slots, i, x)
  {
    hide Dotted, NameEq, LongAt, NoSpaces, ShortName, NeedsLfn, Short, Fits83;
    NotDot(op.name);
    DottedOf(slots[i], ShortName(op.name));
    if !NeedsLfn(op.name) {
      ShortIsShort(op.name);
      ShortNameRoundTrip(op.name);
      NameEqSteps(Dotted(Short(op.name)), op.name, x);
    }
  }

  /** What a proper name finds in an orderly directory: an entry with its short name. */
  lemma FoundShort(slots: Slots, place: Key, ops: seq<Op>, m: nat, x: Name, i: nat)
    requires Catalog(ops) && Orderly(slots, place, ops, m) && Proper(x) && i < |slots| && Matches(slots, i, x)
    ensures Dirs.Live(slots[i]) && !Dotty(slots, i) && slots[i][..11] == ShortName(x)
        && Comes(slots, i, place, ops, m)
  {
    hide Dotted, NameEq, LongAt, Survives, NoSpaces, ShortName, NeedsLfn, Dotty, EntryOf, Keys, SpeltAlike;
    assert Dirs.Live(slots[i]);
    if Dotty(slots, i) { DottyMisses(slots, i, x); }
    var j :| 0 <= j < m && j < |ops| && Keys(ops[j].parts) == place && EntryOf(slots, i, ops[j]);
    assert ProperOp(ops[j]);
    MatchesShort(slots, i, ops[j], x);
  }

  /** An entry is found by every proper name equal to its own. */
  lemma OwnFound(slots: Slots, place: Key, ops: seq<Op>, m: nat, i: nat, op: Op, x: Name)
    requires Catalog(ops) && Orderly(slots, place, ops, m) && Tidy(slots) && |slots| <= MAX_SLOTS
    requires i < |slots| && EntryOf(slots, i, op) && !Dotty(slots, i) && Proper(op.name)
    requires NameEq(op.name, x) && Proper(x)
    ensures Find(slots, x) == Some(i)
  {
    hide Dotted, NameEq, LongAt, Survives, NoSpaces, ShortName, NeedsLfn, Dotty, Catalog, Matches, Comes;
    MatchesOwn(slots, i, op, x);
    SameShort(op.name, x);
    forall j | 0 <= j < i ensures !Matches(slots, j, x) {
      if Matches(slots, j, x) { FoundShort(slots, place, ops, m, x, j); }
    }
    assert forall j :: 0 <= j <= i ==> !Ended(slots[j]);
    FindIs(slots, x, i);
  }

  // ---------------------------------------------------------------- walking down a path of the list

  lemma KeysMore(parts: seq<Name>, t: nat)
    requires t < |parts|
    ensures Keys(parts[..t + 1]) == Keys(parts[..t]) + [ShortName(parts[t])]
  {
    hide ShortName;
  }

  /** One component: the builder and the driver find the same directory. */
  lemma StepLeads(S: Tree, root: nat, K: map<nat, Key>, ops: seq<Op>, m: nat, q: nat, d: nat, t: nat, i: nat)
    requires Catalog(ops) && Ordered(S, root, K, ops, m) && Sober(S) && q < |ops| && d in S && t < |ops[q].parts|
    requires K[d] == Keys(ops[q].parts[..t]) && FindShort(S[d], ShortName(ops[q].parts[t]), 0) == Some(i)
    ensures SpotIn(S, d, ops[q].parts[t]) == At(Ref(d, i))
    ensures var c := EntClus(S[d][i]);
            && Step(S, root, d, ops[q].parts[t]) == Some(c) && c != 0 && c in S
            && K[c] == Keys(ops[q].parts[..t + 1])
  {
    hide Dotted, NameEq, LongAt, Survives, NoSpaces, ShortName, NeedsLfn, FindFrom, FindShort, Keys, EntClus, Matches,
         SpeltAlike, Orderly, IsDir;
    var p, s := ops[q].parts[t], S[d];
    assert ProperOp(ops[q]) && Proper(p);
    assert Wanted(s[i], ShortName(p));
    assert Neat(s);
    assert Dirs.Live(s[i]);
    ShortNameStarts(p);
    DottedOf(s[i], ShortName(p));
    assert !Dotty(s, i);
    assert Orderly(s, K[d], ops, m);
    CameFrom(s, K[d], ops, m, i);
    var j :| 0 <= j < m && j < |ops| && Keys(ops[j].parts) == K[d] && EntryOf(s, i, ops[j]);
    KeysMore(ops[q].parts, t);
    assert SpeltAlike(ops[j], ops[q].parts, t);
    AlikeEq(ops[j], ops[q].parts, t);
    assert ProperOp(ops[j]);
    OwnFound(s, K[d], ops, m, i, ops[j], p);
  }

  lemma AlikeEq(op: Op, parts: seq<Name>, t: nat)
    requires t < |parts| && SpeltAlike(op, parts, t) && op.Mkdir? && FullKey(op) == Keys(parts[..t + 1])
    ensures NameEq(op.name, parts[t])
  {
  }

  lemma CameFrom(slots: Slots, place: Key, ops: seq<Op>, m: nat, i: nat)
    requires Orderly(slots, place, ops, m) && i < |slots| && Dirs.Live(slots[i]) && !Dotty(slots, i)
    ensures Comes(slots, i, place, ops, m)
  {
  }

  /** The walk of a call: it is unambiguous, and ends at the directory of its place. */
  lemma {:induction false} WalkLeads(S: Tree, root: nat, K: map<nat, Key>, ops: seq<Op>, m: nat, q: nat, d: nat, t: nat,
                                     e: nat)
    requires Catalog(ops) && Ordered(S, root, K, ops, m) && Sober(S) && q < |ops| && d in S && t <= |ops[q].parts|
    requires K[d] == Keys(ops[q].parts[..t]) && Trail(S, root, d, ops[q].parts[t..]) == Some(e)
    ensures Unambiguous(S, root, d, ops[q].parts[t..]) && e in S && K[e] == Keys(ops[q].parts)
    decreases |ops[q].parts| - t
  {
    hide Catalog, Sober, ShortName, FindShort, Keys, EntClus, FindFrom, Ordered;
    var parts := ops[q].parts;
    if t == |parts| {
      assert parts[..t] == parts && parts[t..] == [];
      OrderedKeys(S, root, K, ops, m);
    } else {
      var rest := parts[t..];
      assert rest[0] == parts[t] && rest[1..] == parts[t + 1..];
      var i := FindShort(S[d], ShortName(rest[0]), 0).value;
      StepLeads(S, root, K, ops, m, q, d, t, i);
      WalkLeads(S, root, K, ops, m, q, EntClus(S[d][i]), t + 1, e);
    }
  }

  lemma OrderedKeys(S: Tree, root: nat, K: map<nat, Key>, ops: seq<Op>, m: nat)
    requires Ordered(S, root, K, ops, m)
    ensures root in S && K.Keys == S.Keys && K[root] == Keys([])
  {
    hide Orderly, Dotted, ShortName;
  }

  lemma TakenOnce(ops: seq<Op>, j: nat, m: nat)
    requires Catalog(ops) && j < m < |ops| && ops[m].AddFile? && Keys(ops[j].parts) == Keys(ops[m].parts)
    ensures ShortName(ops[j].name) != ShortName(ops[m].name)
  {
    hide ShortName, SpeltAlike, ProperOp;
    var a, b := FullKey(ops[j]), FullKey(ops[m]);
  }

  /** A file that is still to be added is not there: nothing in its directory has its short name. */
  lemma NotThere(S: Tree, root: nat, K: map<nat, Key>, ops: seq<Op>, m: nat, e: nat)
    requires Catalog(ops) && Ordered(S, root, K, ops, m) && m < |ops| && ops[m].AddFile? && e in S
    requires K[e] == Keys(ops[m].parts)
    ensures SpotIn(S, e, ops[m].name) == Nowhere
    ensures forall i :: 0 <= i < |S[e]| && Dirs.Live(S[e][i]) && !Dotty(S[e], i) ==>
              S[e][i][..11] != ShortName(ops[m].name)
  {
    hide Dotted, NameEq, LongAt, Survives, NoSpaces, ShortName, NeedsLfn, FindFrom, Keys, EntClus, Matches, SpeltAlike,
         Orderly, IsDir, Dotty;
    var s, n := S[e], ops[m].name;
    assert Orderly(s, K[e], ops, m) && ProperOp(ops[m]);
    forall i | 0 <= i < |s| && Dirs.Live(s[i]) && !Dotty(s, i) ensures s[i][..11] != ShortName(n) {
      CameFrom(s, K[e], ops, m, i);
      var j :| 0 <= j < m && j < |ops| && Keys(ops[j].parts) == K[e] && EntryOf(s, i, ops[j]);
      TakenOnce(ops, j, m);
    }
    if Find(s, n).Some? { FoundShort(s, K[e], ops, m, n, Find(s, n).value); }
  }

  /** So every file of the list meets the condition of RunReads where it is added. */
  lemma IsDistinct(v: Vol, root: nat, per: nat, K: map<nat, Key>, ops: seq<Op>, m: nat, e: nat)
    requires Fits(v.data, v.L, per) && Catalog(ops) && Ordered(TreeOf(v, per), root, K, ops, m) && Sober(TreeOf(v, per))
    requires m < |ops| && ops[m].AddFile? && Led(v, root, per, ops[m].parts) == Some(e)
    ensures Distinct83(v, root, per, ops[m].parts, ops[m].name)
    ensures e in TreeOf(v, per) && K[e] == Keys(ops[m].parts)
  {
    hide Catalog, Sober, ShortName, Keys, Ordered, Trail, Unambiguous, SpotIn, Survives, TreeOf, Fits, Walk;
    var S, parts, n := TreeOf(v, per), ops[m].parts, ops[m].name;
    OrderedKeys(S, root, K, ops, m);
    assert parts[..0] == [] && parts[0..] == parts;
    WalkLeads(S, root, K, ops, m, m, root, 0, e);
    NotThere(S, root, K, ops, m, e);
    TrailIsWalk(S, root, root, parts);
    var q := parts + [n];
    assert q[..|q| - 1] == parts && Last(q) == n;
    assert Locate(S, root, q) == Nowhere;
    PlainOp(ops, m);
    assert Plain(q);
  }

  lemma PlainOp(ops: seq<Op>, m: nat)
    requires Catalog(ops) && m < |ops|
    ensures Plain(ops[m].parts + [ops[m].name]) && Proper(ops[m].name)
  {
    hide SpeltAlike, FullKey, Proper;
    assert ProperOp(ops[m]);
    var q := ops[m].parts + [ops[m].name];
    forall t | 0 <= t < |q| ensures !DotName(q[t]) {
      assert Proper(q[t]);
      NotDot(q[t]);
    }
  }

  // ---------------------------------------------------------------- one call more

  lemma OrderlyMore(slots: Slots, place: Key, ops: seq<Op>, m: nat)
    requires Orderly(slots, place, ops, m)
    ensures Orderly(slots, place, ops, m + 1)
  {
    hide Dotty, EntryOf, Keys;
  }

  /** The new record is the entry of its call. */
  lemma NewEntryOf(b: Slots, s: nat, recs: seq<Entry>, op: Op, attr: byte, clus: nat, size: nat)
    requires Proper(op.name) && clus < 0x1_0000_0000 && size < 0x1_0000_0000
        && attr == if op.Mkdir? then ATTR_DIR else ATTR_ARC
    requires RecordsOf(recs, op.name, attr, clus, size) && s + |recs| <= |b| && b[s..s + |recs|] == recs
    requires s == 0 || !IsLfn(b[s - 1])
    ensures recs != [] && EntryOf(b, s + |recs| - 1, op) && Counts(b, s + |recs| - 1)
        && EntClus(b[s + |recs| - 1]) == clus
  {
    hide ShortEntry, Fragments, Fits83, Dotted, DecodeParts, NoSpaces, ShortName, Short, NeedsLfn, EntClus, EntSize,
         IsDir, Dirs.Live, IsLfn, Gone;
    var n, r, notes := op.name, s + |recs| - 1, recs[..|recs| - 1];
    SurvivesLegible(n);
    RecordsAreRecords(recs, n, attr, clus, size);
    ShortEntryFields(n, attr, clus, size);
    ShortBytes(n, attr, clus, size);
    assert b[r] == b[s..s + |recs|][|recs| - 1] == ShortEntry(n, attr, clus, size);
    forall i | 0 <= i < |notes| ensures b[s + i] == notes[i] && IsLfn(notes[i]) {
      assert b[s + i] == b[s..s + |recs|][i] == recs[i];
    }
    if NeedsLfn(n) {
      LongNameRoundTrip(notes, n, SumOf(ShortName(n)));
      PendRun(b, s, notes, |notes|);
      assert notes[..|notes|] == notes;
    } else {
      PendRun(b, s, notes, 0);
      NoLong();
    }
  }

  lemma ShortBytes(name: Name, attr: byte, clus: nat, size: nat)
    requires clus < 0x1_0000_0000 && size < 0x1_0000_0000
    ensures ShortEntry(name, attr, clus, size)[..11] == ShortName(name)
  {
    hide ShortName, R16, R32, W16, W32;
    var raw: Entry := ShortName(name) + [attr] + Zeros(20);
    Prefix12(Pointing(raw, clus, size), raw);
    assert raw[..11] == ShortName(name);
  }

  /** Slots before the records are what they were. */
  lemma OldSlots(a: Slots, b: Slots, recs: seq<Entry>, i: nat)
    requires Behind(a, b, recs) && i < FreeAt(a)
    ensures i < |b| && b[i] == a[i] && LongAt(b, i) == LongAt(a, i) && Dotty(b, i) == Dotty(a, i)
  {
    hide LongName, Dotted;
    var s := FreeAt(a);
    assert a[i] == a[..s][i] == b[..s][i] == b[i];
    assert a[..i] == a[..s][..i] == b[..s][..i] == b[..i];
    PendPrefix(a, b, i);
  }

  /** A live slot is an old one or the new record. */
  lemma LiveSlots(a: Slots, b: Slots, recs: seq<Entry>, i: nat)
    requires Behind(a, b, recs) && Records(recs) && i < |b| && Dirs.Live(b[i])
    ensures i < FreeAt(a) || i == FreeAt(a) + |recs| - 1
  {
    var s := FreeAt(a);
    if s <= i < s + |recs| { assert b[i] == b[s..s + |recs|][i - s] == recs[i - s]; }
  }

  lemma OldComes(a: Slots, b: Slots, recs: seq<Entry>, i: nat, place: Key, ops: seq<Op>, m: nat)
    requires Behind(a, b, recs) && i < FreeAt(a) && i < |b| && Comes(a, i, place, ops, m)
    ensures Comes(b, i, place, ops, m + 1)
  {
    hide LongName, Dotted, Keys, Dotty, ShortName, NeedsLfn, Behind, PendAt;
    OldSlots(a, b, recs, i);
    var j :| 0 <= j < m && j < |ops| && Keys(ops[j].parts) == place && EntryOf(a, i, ops[j]);
    assert EntryOf(b, i, ops[j]);
  }

  /** A directory stays orderly when a call adds its entry, if no other has its short name. */
  lemma BehindOrderly(a: Slots, b: Slots, recs: seq<Entry>, ops: seq<Op>, m: nat, place: Key)
    requires Orderly(a, place, ops, m) && Behind(a, b, recs) && Records(recs) && m < |ops|
    requires Keys(ops[m].parts) == place && FreeAt(a) + |recs| <= |b| && recs != []
    requires var r := FreeAt(a) + |recs| - 1; EntryOf(b, r, ops[m]) && Counts(b, r)
    requires forall i :: 0 <= i < |a| && Counts(a, i) ==> a[i][..11] != ShortName(ops[m].name)
    ensures Orderly(b, place, ops, m + 1)
  {
    hide Dotty, EntryOf, Keys, Behind, Records, ShortName, Comes, Dirs.Live, Orderly, FreeAt;
    var r := FreeAt(a) + |recs| - 1;
    forall i | 0 <= i < |b| && Dirs.Live(b[i]) ensures Dotty(b, i) || Comes(b, i, place, ops, m + 1) {
      if i == r { NewComes(b, i, place, ops, m); } else { OldComesAt(a, b, recs, i, place, ops, m); }
    }
    NewShort(b, r, ops[m]);
    forall i, j | 0 <= i < j < |b| && Counts(b, i) && Counts(b, j) ensures b[i][..11] != b[j][..11] {
      if i != r { OldCounts(a, b, recs, i); }
      if j != r { OldCounts(a, b, recs, j); }
      if i != r && j != r { OwnShort(a, place, ops, m, i, j); }
    }
    OrderlyIs(b, place, ops, m + 1);
  }

  lemma OrderlyIs(slots: Slots, place: Key, ops: seq<Op>, m: nat)
    requires forall i :: 0 <= i < |slots| && Dirs.Live(slots[i]) ==> Dotty(slots, i) || Comes(slots, i, place, ops, m)
    requires forall i, j :: 0 <= i < j < |slots| && Counts(slots, i) && Counts(slots, j) ==>
               slots[i][..11] != slots[j][..11]
    ensures Orderly(slots, place, ops, m)
  {
    hide Dotty, Dirs.Live, Comes;
  }

  lemma OwnShort(a: Slots, place: Key, ops: seq<Op>, m: nat, i: nat, j: nat)
    requires Orderly(a, place, ops, m) && i < j < |a| && Counts(a, i) && Counts(a, j)
    ensures a[i][..11] != a[j][..11]
  {
    hide Dotty, Dirs.Live, Comes;
  }

  lemma OldComesAt(a: Slots, b: Slots, recs: seq<Entry>, i: nat, place: Key, ops: seq<Op>, m: nat)
    requires Orderly(a, place, ops, m) && Behind(a, b, recs) && Records(recs) && i < |b| && Dirs.Live(b[i])
    requires i != FreeAt(a) + |recs| - 1
    ensures Dotty(b, i) || Comes(b, i, place, ops, m + 1)
  {
    hide Dotty, EntryOf, Keys, Behind, Records, ShortName, Comes, Dirs.Live;
    LiveSlots(a, b, recs, i);
    OldSlots(a, b, recs, i);
    if !Dotty(a, i) { OldComes(a, b, recs, i, place, ops, m); }
  }

  lemma OldCounts(a: Slots, b: Slots, recs: seq<Entry>, i: nat)
    requires Behind(a, b, recs) && Records(recs) && i < |b| && Counts(b, i) && i != FreeAt(a) + |recs| - 1
    ensures i < |a| && b[i] == a[i] && Counts(a, i)
  {
    hide Dotty, Behind, Records, Dirs.Live;
    LiveSlots(a, b, recs, i);
    OldSlots(a, b, recs, i);
  }

  lemma NewComes(b: Slots, i: nat, place: Key, ops: seq<Op>, m: nat)
    requires i < |b| && m < |ops| && Keys(ops[m].parts) == place && EntryOf(b, i, ops[m])
    ensures Comes(b, i, place, ops, m + 1)
  {
  }

  lemma NewShort(b: Slots, i: nat, op: Op)
    requires i < |b| && EntryOf(b, i, op)
    ensures b[i][..11] == ShortName(op.name)
  {
  }

  lemma OrderedMore(S: Tree, root: nat, K: map<nat, Key>, ops: seq<Op>, m: nat)
    requires Ordered(S, root, K, ops, m)
    ensures Ordered(S, root, K, ops, m + 1)
  {
    hide Orderly, Dotty, EntClus, IsDir;
    forall d | d in S ensures Orderly(S[d], K[d], ops, m + 1) { OrderlyMore(S[d], K[d], ops, m); }
  }

  /** The directory entries of a directory lead to their places. */
  ghost predicate Points(slots: Slots, place: Key, K: map<nat, Key>) {
    forall i: nat :: i < |slots| && Counts(slots, i) && IsDir(slots[i]) ==>
      EntClus(slots[i]) != 0 && EntClus(slots[i]) in K && K[EntClus(slots[i])] == place + [slots[i][..11]]
  }

  lemma OrderedPoints(S: Tree, root: nat, K: map<nat, Key>, ops: seq<Op>, m: nat)
    requires root in S && K.Keys == S.Keys
    ensures Ordered(S, root, K, ops, m) <==>
            K[root] == [] && (forall d :: d in S ==> Orderly(S[d], K[d], ops, m))
              && forall d :: d in S ==> Points(S[d], K[d], K)
  {
    hide Orderly, Dotty, EntClus, IsDir, Dirs.Live;
  }

  /** An added record that is no directory, or leads to its place. */
  lemma BehindPoints(a: Slots, b: Slots, recs: seq<Entry>, place: Key, K: map<nat, Key>, K': map<nat, Key>)
    requires Behind(a, b, recs) && Records(recs) && recs != [] && FreeAt(a) + |recs| <= |b|
    requires Points(a, place, K) && forall d :: d in K ==> d in K' && K'[d] == K[d]
    requires var r := FreeAt(a) + |recs| - 1;
             IsDir(b[r]) ==> EntClus(b[r]) != 0 && EntClus(b[r]) in K' && K'[EntClus(b[r])] == place + [b[r][..11]]
    ensures Points(b, place, K')
  {
    hide Dotty, Behind, Records, Dirs.Live, IsDir, EntClus;
    forall i: nat | i < |b| && Counts(b, i) && IsDir(b[i]) && i != FreeAt(a) + |recs| - 1
      ensures i < FreeAt(a) && b[i] == a[i] && Counts(a, i) {
      LiveSlots(a, b, recs, i);
      OldSlots(a, b, recs, i);
    }
  }

  /** A call that made its entry in directory `e` leaves the tree ordered; a new directory gets its place. */
  lemma LiesOrdered(S: Tree, S': Tree, root: nat, K: map<nat, Key>, K': map<nat, Key>, ops: seq<Op>, m: nat, e: nat,
                    recs: seq<Entry>, c: nat, size: nat)
    requires Catalog(ops) && Ordered(S, root, K, ops, m) && Sober(S) && m < |ops| && e in S && Lies(S, S', e, recs)
    requires K[e] == Keys(ops[m].parts) && c < 0x1_0000_0000 && size < 0x1_0000_0000
    requires RecordsOf(recs, ops[m].name, if ops[m].Mkdir? then ATTR_DIR else ATTR_ARC, c, size)
    requires forall i :: 0 <= i < |S[e]| && Counts(S[e], i) ==> S[e][i][..11] != ShortName(ops[m].name)
    requires if ops[m].Mkdir? then
               && c != 0 && c !in S && c in S' && Vacant(S'[c]) && K' == K[c := FullKey(ops[m])]
               && (forall k :: k in S' <==> k in S || k == c)
             else K' == K && forall k :: k in S' <==> k in S
    ensures Ordered(S', root, K', ops, m + 1)
  {
    hide Orderly, Dotty, EntClus, IsDir, Dirs.Live, SpeltAlike, Keys, ShortName, RecordsOf, Points, Behind, Vacant,
         NeedsLfn, EntryOf, Records, Ordered, Survives, NoSpaces, Neat, Counts;
    var a, b, op, r := S[e], S'[e], ops[m], FreeAt(S[e]) + |recs| - 1;
    assert ProperOp(op);
    OrderedRoot(S, root, K, ops, m);
    OrderedPoints(S, root, K, ops, m);
    NewRecord(a, b, recs, op, c, size);
    BehindOrderly(a, b, recs, ops, m, K[e]);
    BehindPoints(a, b, recs, K[e], K, K');
    forall d | d in S' ensures Orderly(S'[d], K'[d], ops, m + 1) && Points(S'[d], K'[d], K') {
      if d != e {
        if d in S {
          OrderlyMore(S[d], K[d], ops, m);
          PointsMore(S[d], K[d], K, K');
        } else {
          VacantOrdered(S'[d], K'[d], ops, m + 1, K');
        }
      }
    }
    OrderedPoints(S', root, K', ops, m + 1);
  }

  lemma OrderedRoot(S: Tree, root: nat, K: map<nat, Key>, ops: seq<Op>, m: nat)
    requires Ordered(S, root, K, ops, m)
    ensures root in S && K.Keys == S.Keys && K[root] == []
  {
    hide Orderly, Dotty, EntClus, IsDir;
  }

  /** The records of a proper name, behind a sober directory. */
  lemma NewRecord(a: Slots, b: Slots, recs: seq<Entry>, op: Op, c: nat, size: nat)
    requires Tidy(a) && Neat(a) && Behind(a, b, recs) && Proper(op.name) && c < 0x1_0000_0000 && size < 0x1_0000_0000
    requires RecordsOf(recs, op.name, if op.Mkdir? then ATTR_DIR else ATTR_ARC, c, size)
    ensures recs != [] && Records(recs) && FreeAt(a) + |recs| <= |b|
    ensures var r := FreeAt(a) + |recs| - 1;
            EntryOf(b, r, op) && Counts(b, r) && EntClus(b[r]) == c && (IsDir(b[r]) <==> op.Mkdir?)
              && b[r][..11] == ShortName(op.name)
  {
    hide EntClus, IsDir, Dirs.Live, ShortName, RecordsOf, NeedsLfn, Survives, NoSpaces, Neat, Dotty, Tidy, OpenAt,
         IsLfn, LongAt, Records;
    var s := FreeAt(a);
    NeatOpen(a);
    SurvivesLegible(op.name);
    if s > 0 { assert b[s - 1] == b[..s][s - 1] == a[..s][s - 1] == a[s - 1]; }
    NewEntryOf(b, s, recs, op, if op.Mkdir? then ATTR_DIR else ATTR_ARC, c, size);
    RecordsAreRecords(recs, op.name, if op.Mkdir? then ATTR_DIR else ATTR_ARC, c, size);
  }

  lemma PointsMore(slots: Slots, place: Key, K: map<nat, Key>, K': map<nat, Key>)
    requires Points(slots, place, K) && forall d :: d in K ==> d in K' && K'[d] == K[d]
    ensures Points(slots, place, K')
  {
    hide Dotty, Dirs.Live, IsDir, EntClus;
  }

  lemma VacantOrdered(slots: Slots, place: Key, ops: seq<Op>, m: nat, K: map<nat, Key>)
    requires Vacant(slots)
    ensures Orderly(slots, place, ops, m) && Points(slots, place, K)
  {
    hide Dotted, Dirs.Live, IsDir, EntClus, LongAt, Keys, EntryOf;
  }

  // ---------------------------------------------------------------- whole runs

  lemma SoundSober(v: Vol, limit: nat, root: nat, per: nat, bad: nat)
    requires Sound(v, limit, root, per) && PerOk(per) && NeatTree(TreeOf(v, per), bad)
    ensures Sober(TreeOf(v, per))
  {
    hide ChainsOk, TreeOk, DirSlots, DataShape, Neat, Shuns, Tidy;
    TreeFacts(v, limit, root, per);
    forall d | d in TreeOf(v, per) ensures |TreeOf(v, per)[d]| <= MAX_SLOTS { SlotsBounded(v, limit, root, per, d); }
  }

  /** One call of the list. */
  lemma DidOrdered(v: Vol, z: Vol, limit: nat, root: nat, per: nat, bad: nat, d: Deed, K: map<nat, Key>, ops: seq<Op>,
                   m: nat)
    returns (K': map<nat, Key>)
    requires Did(v, z, limit, root, per, bad, d) && Fine(v, limit, per) && Fine(z, limit, per)
    requires Catalog(ops) && m < |ops| && d.op == ops[m] && Ordered(TreeOf(v, per), root, K, ops, m)
    ensures Ordered(TreeOf(z, per), root, K', ops, m + 1)
    ensures ops[m].AddFile? ==> Distinct83(v, root, per, ops[m].parts, ops[m].name)
  {
    hide Fine, Sound, NeatTree, Catalog, Ordered, Filed, Made, Occupied, Sober, Keys, FullKey, Distinct83, Led, TreeOf;
    K' := K;
    SoundSober(v, limit, root, per, bad);
    FineFits(v, limit, per);
    match d.op
    case AddFile(parts, name, bytes) =>
      IsDistinct(v, root, per, K, ops, m, d.dir);
      LedThere(v, root, per, K, ops, m, d.dir);
      NotThere(TreeOf(v, per), root, K, ops, m, d.dir);
      FiledOrdered(v, z, limit, root, per, d, K, ops, m);
    case Mkdir(parts, name) =>
      if d.there {
        OrderedMore(TreeOf(v, per), root, K, ops, m);
      } else {
        K' := K[d.first := FullKey(ops[m])];
        LedThere(v, root, per, K, ops, m, d.dir);
        NotListed(v, root, per, parts, name, d.dir);
        MadeOrdered(v, z, limit, root, per, d, K, ops, m);
      }
  }

  lemma FineFits(v: Vol, limit: nat, per: nat)
    requires Fine(v, limit, per)
    ensures Fits(v.data, v.L, per)
  {
    hide ChainsOk;
  }

  lemma LedThere(v: Vol, root: nat, per: nat, K: map<nat, Key>, ops: seq<Op>, m: nat, e: nat)
    requires Fits(v.data, v.L, per) && Catalog(ops) && Ordered(TreeOf(v, per), root, K, ops, m) && Sober(TreeOf(v, per))
    requires m < |ops| && Led(v, root, per, ops[m].parts) == Some(e)
    ensures e in TreeOf(v, per) && K.Keys == TreeOf(v, per).Keys && K[e] == Keys(ops[m].parts)
  {
    hide Catalog, Sober, ShortName, Keys, Ordered, Trail, TreeOf, Fits;
    OrderedKeys(TreeOf(v, per), root, K, ops, m);
    assert ops[m].parts[..0] == [] && ops[m].parts[0..] == ops[m].parts;
    WalkLeads(TreeOf(v, per), root, K, ops, m, m, root, 0, e);
  }

  lemma NotListed(v: Vol, root: nat, per: nat, parts: seq<Name>, name: Name, e: nat)
    requires Fits(v.data, v.L, per) && Led(v, root, per, parts) == Some(e) && e in TreeOf(v, per)
        && !Occupied(v, root, per, parts, name)
    ensures forall i :: 0 <= i < |TreeOf(v, per)[e]| ==> TreeOf(v, per)[e][i][..11] != ShortName(name)
  {
    hide ShortName, DirSlots, Trail;
  }

  lemma FiledOrdered(v: Vol, z: Vol, limit: nat, root: nat, per: nat, d: Deed, K: map<nat, Key>, ops: seq<Op>, m: nat)
    requires Fine(v, limit, per) && Fine(z, limit, per) && Catalog(ops) && m < |ops| && ops[m].AddFile?
    requires Filed(v, z, limit, root, per, d.dir, d.recs, d.first, ops[m].name, ops[m].bytes)
    requires Ordered(TreeOf(v, per), root, K, ops, m) && Sober(TreeOf(v, per))
    requires d.dir in TreeOf(v, per) && d.dir in K && K[d.dir] == Keys(ops[m].parts)
    requires forall i :: 0 <= i < |TreeOf(v, per)[d.dir]| && Counts(TreeOf(v, per)[d.dir], i) ==>
               TreeOf(v, per)[d.dir][i][..11] != ShortName(ops[m].name)
    ensures Ordered(TreeOf(z, per), root, K, ops, m + 1)
  {
    hide ChainsOk, DataShape, DirSlots, RecordsOf, FileAdded, Lies, Kept, Catalog, Ordered, Sober, Keys, FullKey,
         ShortName, FreeAt, Counts;
    LiesOrdered(TreeOf(v, per), TreeOf(z, per), root, K, K, ops, m, d.dir, d.recs, d.first, |ops[m].bytes|);
  }

  lemma MadeOrdered(v: Vol, z: Vol, limit: nat, root: nat, per: nat, d: Deed, K: map<nat, Key>, ops: seq<Op>, m: nat)
    requires Fine(v, limit, per) && Fine(z, limit, per) && Catalog(ops) && m < |ops| && ops[m].Mkdir?
    requires Made(v, z, limit, root, per, d.dir, d.recs, d.first, ops[m].name)
    requires Ordered(TreeOf(v, per), root, K, ops, m) && Sober(TreeOf(v, per))
    requires d.dir in TreeOf(v, per) && d.dir in K && K[d.dir] == Keys(ops[m].parts)
    requires forall i :: 0 <= i < |TreeOf(v, per)[d.dir]| && Counts(TreeOf(v, per)[d.dir], i) ==>
               TreeOf(v, per)[d.dir][i][..11] != ShortName(ops[m].name)
    ensures Ordered(TreeOf(z, per), root, K[d.first := FullKey(ops[m])], ops, m + 1)
  {
    hide ChainsOk, DataShape, DirSlots, RecordsOf, DirAdded, Lies, Kept, Catalog, Ordered, Sober, Keys, FullKey,
         ShortName, FreeAt, Counts, Vacant;
    NotZero(v, z, limit, per, d.first);
    LiesOrdered(TreeOf(v, per), TreeOf(z, per), root, K, K[d.first := FullKey(ops[m])], ops, m, d.dir, d.recs, d.first,
      0);
  }

  lemma NotZero(v: Vol, z: Vol, limit: nat, per: nat, c: nat)
    requires Fine(z, limit, per) && c in z.L.depth
    ensures c != 0
  {
    hide DirSlots, DataShape;
    HeadsPositive(z.fat, limit, z.L);
  }

  /** Along a run of a catalog every tree is ordered. */
  lemma {:induction false} RunOrdered(vs: seq<Vol>, deeds: seq<Deed>, limit: nat, root: nat, per: nat, bad: nat,
                                      K0: map<nat, Key>, ops: seq<Op>, m: nat)
    returns (K: map<nat, Key>)
    requires Run(vs, deeds, limit, root, per, bad) && Catalog(ops) && m <= |deeds| <= |ops|
    requires forall i :: 0 <= i < |deeds| ==> deeds[i].op == ops[i]
    requires Fits(vs[0].data, vs[0].L, per) && Ordered(TreeOf(vs[0], per), root, K0, ops, 0)
    ensures Fits(vs[m].data, vs[m].L, per) && Ordered(TreeOf(vs[m], per), root, K, ops, m)
    decreases m
  {
    hide Did, Fine, Ordered, Catalog, Fits, TreeOf, Distinct83;
    K := K0;
    FineFits(vs[m], limit, per);
    if m > 0 {
      K := RunOrdered(vs, deeds, limit, root, per, bad, K0, ops, m - 1);
      K := DidOrdered(vs[m - 1], vs[m], limit, root, per, bad, deeds[m - 1], K, ops, m - 1);
    }
  }

  /** A volume that holds nothing but its root, and no entry there. */
  ghost predicate Blank(v: Vol, root: nat, per: nat) {
    && Fits(v.data, v.L, per) && TreeOf(v, per).Keys == {root}
    && forall i :: 0 <= i < |TreeOf(v, per)[root]| ==> !Dirs.Live(TreeOf(v, per)[root][i])
  }

  lemma BlankOrdered(v: Vol, root: nat, per: nat, ops: seq<Op>)
    requires Blank(v, root, per)
    ensures Ordered(TreeOf(v, per), root, map[root := []], ops, 0)
  {
    hide Dotty, EntryOf, Keys, EntClus, IsDir, DirSlots, Dirs.Live;
  }

  /**
   * The list alone decides: of a catalog, run from a blank volume as far as it succeeds, every file is
   * read by its path at the end, with its own bytes.
   */
  lemma CatalogReads(vs: seq<Vol>, deeds: seq<Deed>, limit: nat, root: nat, per: nat, bad: nat, ops: seq<Op>, i: nat)
    requires Run(vs, deeds, limit, root, per, bad) && Catalog(ops) && |deeds| <= |ops|
    requires forall k :: 0 <= k < |deeds| ==> deeds[k].op == ops[k]
    requires Blank(vs[0], root, per) && i < |deeds| && ops[i].AddFile?
    ensures Distinct83(vs[i], root, per, ops[i].parts, ops[i].name)
    ensures FileAt(vs[|deeds|], limit, root, per, ops[i].parts + [ops[i].name]) == Some(ops[i].bytes)
  {
    hide Did, Fine, Ordered, Catalog, Fits, TreeOf, Distinct83, FileAt, Blank;
    BlankFits(vs[0], root, per);
    BlankOrdered(vs[0], root, per, ops);
    var K := RunOrdered(vs, deeds, limit, root, per, bad, map[root := []], ops, i);
    K := DidOrdered(vs[i], vs[i + 1], limit, root, per, bad, deeds[i], K, ops, i);
    RunReads(vs, deeds, limit, root, per, bad, i);
  }

  lemma BlankFits(v: Vol, root: nat, per: nat)
    requires Blank(v, root, per)
    ensures Fits(v.data, v.L, per)
  {
    hide DirSlots;
  }
}
