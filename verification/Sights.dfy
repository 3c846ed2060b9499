/**
 * Records behind slot 4096 of a directory: the image builder writes them there, and the driver never
 * looks at them (tools/make_fat.py:369-420, kernel/src/fat.c:549-599).
 */
module Sights {
  import opened Options
  import opened Bytes
  import opened Names
  import opened Chains
  import opened Dirs
  import opened Trees
  import opened Wellformed
  import opened Ops
  import opened Paths
  import opened Runs
  import opened Blobs

  /** The entry of the run lies behind the slots the driver looks at. */
  predicate OutOfSight(a: Slots, recs: seq<Entry>) { Records(recs) && FreeAt(a) + |recs| > MAX_SLOTS }

  lemma {:induction false} NotesOnly(b: Slots, n: Name, i: nat)
    requires i <= |b| && forall j :: i <= j < |b| && j < MAX_SLOTS ==> IsLfn(b[j])
    ensures FindFrom(b, n, i) == None
    decreases |b| - i
  {
    if i < |b| && i < MAX_SLOTS { NotesOnly(b, n, i + 1); }
  }

  /** Every name finds what it found. */
  lemma {:induction false} PastFinds(a: Slots, b: Slots, recs: seq<Entry>, n: Name, i: nat)
    requires Behind(a, b, recs) && OutOfSight(a, recs) && i <= FreeAt(a)
    ensures FindFrom(b, n, i) == FindFrom(a, n, i)
    decreases FreeAt(a) - i
  {
    hide Dotted, NameEq, LongName, Dirs.Live, IsLfn, Behind, OutOfSight;
    var s := FreeAt(a);
    BehindFacts(a, b, recs);
    if i == s {
      NotesOnly(b, n, s);
    } else {
      assert a[i] == b[..s][i] == b[i];
      assert a[..i] == b[..s][..i] == b[..i];
      PendPrefix(a, b, i);
      PastFinds(a, b, recs, n, i + 1);
    }
  }

  lemma BehindFacts(a: Slots, b: Slots, recs: seq<Entry>)
    requires Behind(a, b, recs) && OutOfSight(a, recs)
    ensures var s := FreeAt(a);
            && s <= |a| && s <= |b| && b[..s] == a[..s] && (s < |a| ==> Ended(a[s])) && s + |recs| <= |b|
            && (forall j :: 0 <= j < s ==> !Ended(a[j])) && (forall j :: s <= j < |a| ==> !Dirs.Live(a[j]))
            && forall j :: s <= j < |b| && j < MAX_SLOTS ==> IsLfn(b[j])
  {
    hide IsLfn, Dirs.Live, Records, Behind;
    BehindEnds(a, b, recs);
    forall j | 0 <= j < FreeAt(a) ensures !Ended(a[j]) { assert !FreeSlot(a[j]); }
    forall j | FreeAt(a) <= j < |a| ensures !Dirs.Live(a[j]) { EndedDead(a[j]); }
    forall j | FreeAt(a) <= j < |b| && j < MAX_SLOTS ensures IsLfn(b[j]) { NoteAt(a, b, recs, j); }
  }

  lemma BehindEnds(a: Slots, b: Slots, recs: seq<Entry>)
    requires Behind(a, b, recs)
    ensures var s := FreeAt(a); s + |recs| <= |b| && b[..s] == a[..s] && forall j :: s <= j < |a| ==> Ended(a[j])
  {
    hide FreeAt;
  }

  lemma NoteAt(a: Slots, b: Slots, recs: seq<Entry>, j: nat)
    requires Behind(a, b, recs) && OutOfSight(a, recs) && FreeAt(a) <= j < |b| && j < MAX_SLOTS
    ensures IsLfn(b[j])
  {
    hide IsLfn, Dirs.Live, FreeAt;
    var s := FreeAt(a);
    assert b[j] == b[s..s + |recs|][j - s] == recs[j - s];
  }

  lemma EndedDead(e: Entry)
    ensures Ended(e) ==> !Dirs.Live(e)
  {
  }

  lemma PastTree(S: Tree, S': Tree, root: nat, dir: nat, recs: seq<Entry>, d: nat, n: Name)
    requires Lies(S, S', dir, recs) && OutOfSight(S[dir], recs) && d in S
    ensures SpotIn(S', d, n) == SpotIn(S, d, n) != At(Ref(dir, FreeAt(S[dir]) + |recs| - 1))
    ensures Step(S', root, d, n) == Step(S, root, d, n)
  {
    hide FindFrom, EntClus, IsDir;
    if d == dir {
      PastFinds(S[dir], S'[dir], recs, n, 0);
      if Find(S[dir], n).Some? { PastEntry(S[dir], S'[dir], recs, n); }
    }
  }

  lemma PastEntry(a: Slots, b: Slots, recs: seq<Entry>, n: Name)
    requires Behind(a, b, recs) && OutOfSight(a, recs) && Find(a, n).Some?
    ensures var i := Find(a, n).value; i < |b| && b[i] == a[i] && i < FreeAt(a) + |recs| - 1
  {
    hide FindFrom, OutOfSight, Behind;
    BehindFacts(a, b, recs);
    var i, s := Find(a, n).value, FreeAt(a);
    assert i < s;
    assert a[i] == a[..s][i] == b[..s][i] == b[i];
    assert FreeAt(a) + |recs| > MAX_SLOTS by { FarOut(a, recs); }
  }

  lemma FarOut(a: Slots, recs: seq<Entry>)
    requires OutOfSight(a, recs)
    ensures FreeAt(a) + |recs| > MAX_SLOTS && |recs| > 0
  {
  }

  /** Where a component leads is a directory of the tree. */
  ghost predicate Stays(S: Tree, root: nat) {
    forall d: nat, n: Name :: d in S && Step(S, root, d, n).Some? ==> Step(S, root, d, n).value in S
  }

  lemma SoundStays(v: Vol, limit: nat, root: nat, per: nat)
    requires Sound(v, limit, root, per) && PerOk(per)
    ensures Stays(TreeOf(v, per), root)
  {
    hide TreeOk, ChainsOk, DirSlots, FindFrom, EntClus, DirItems, Sized, IsDir, DataShape;
    var S := TreeOf(v, per);
    forall d: nat, n: Name | d in S && Step(S, root, d, n).Some? ensures Step(S, root, d, n).value in S {
      HitFolder(v, limit, root, per, d, n, SpotIn(S, d, n).ref.slot);
    }
  }

  lemma {:induction false} PastWalk(S: Tree, S': Tree, root: nat, dir: nat, recs: seq<Entry>, d: nat, parts: seq<Name>)
    requires Lies(S, S', dir, recs) && OutOfSight(S[dir], recs) && Stays(S, root) && d in S
    ensures Walk(S', root, d, parts) == Walk(S, root, d, parts)
    ensures Walk(S, root, d, parts).Some? ==> Walk(S, root, d, parts).value in S
    decreases |parts|
  {
    hide Step, Lies, OutOfSight;
    if parts != [] {
      PastDir(S, S', dir, recs);
      PastTree(S, S', root, dir, recs, d, parts[0]);
      if Step(S, root, d, parts[0]).Some? {
        PastWalk(S, S', root, dir, recs, Step(S, root, d, parts[0]).value, parts[1..]);
      }
    }
  }

  lemma PastDir(S: Tree, S': Tree, dir: nat, recs: seq<Entry>)
    requires Lies(S, S', dir, recs)
    ensures dir in S && dir in S'
  {
  }

  lemma PastSame(S: Tree, S': Tree, dir: nat, recs: seq<Entry>)
    requires Lies(S, S', dir, recs) && OutOfSight(S[dir], recs)
    ensures SameEntries(S, S', dir, FreeAt(S[dir]) + |recs| - 1)
  {
    hide InfoAt, OutOfSight, Behind, Dirs.Live;
    BehindFacts(S[dir], S'[dir], recs);
    var s := FreeAt(S[dir]);
    forall d: nat, i: nat | d in S && d in S' && i < |S[d]| && i < |S'[d]| && Dirs.Live(S[d][i])
      ensures S'[d][i] == S[d][i] && InfoAt(S'[d], i) == InfoAt(S[d], i)
    {
      if d == dir {
        assert i < s && S[d][i] == S[d][..s][i] == S'[d][..s][i];
        InfoPrefix(S[d], S'[d], s, i);
      }
    }
  }

  lemma InfoPrefix(a: Slots, b: Slots, s: nat, i: nat)
    requires i < s <= |a| && s <= |b| && a[..s] == b[..s]
    ensures InfoAt(b, i) == InfoAt(a, i)
  {
    hide LongName, Dotted, EntClus, EntSize;
    assert a[i] == a[..s][i] == b[i] && a[..i] == a[..s][..i] == b[..i];
    PendPrefix(a, b, i);
  }

  lemma PastLocate(S: Tree, S': Tree, root: nat, dir: nat, recs: seq<Entry>, q: seq<Name>)
    requires Lies(S, S', dir, recs) && OutOfSight(S[dir], recs) && Stays(S, root) && root in S && |recs| > 0
    ensures Locate(S', root, q) == Locate(S, root, q) != At(Ref(dir, FreeAt(S[dir]) + |recs| - 1))
  {
    hide Lies, OutOfSight, Stays, Walk, SpotIn, Step;
    PastDir(S, S', dir, recs);
    if q != [] {
      PastWalk(S, S', root, dir, recs, root, q[..|q|-1]);
      if Parent(S, root, q).Some? { PastTree(S, S', root, dir, recs, Parent(S, root, q).value, Last(q)); }
    }
  }

  /** What is entered behind slot 4096 is not seen: no path at all stats or reads otherwise than before. */
  lemma PastUnseen(v: Vol, z: Vol, limit: nat, root: nat, per: nat, dir: nat, recs: seq<Entry>, q: seq<Name>)
    requires Sound(v, limit, root, per) && Fine(z, limit, per) && PerOk(per) && |z.fat| == |v.fat| && Kept(v, z, 0)
    requires Lies(TreeOf(v, per), TreeOf(z, per), dir, recs) && OutOfSight(TreeOf(v, per)[dir], recs)
    ensures Unseen(v, z, limit, root, per, q) && Locate(TreeOf(z, per), root, q) == Locate(TreeOf(v, per), root, q)
  {
    hide TreeOk, ChainsOk, DirSlots, FindFrom, DirItems, Sized, DataShape, Kept, Lies, OutOfSight, SameEntries, Stays,
         Locate, Stat, FileAt, AllSlots, Owns;
    var S, S' := TreeOf(v, per), TreeOf(z, per);
    PastDir(S, S', dir, recs);
    FarOut(S[dir], recs);
    SoundStays(v, limit, root, per);
    TreeFacts(v, limit, root, per);
    PastSame(S, S', dir, recs);
    PastLocate(S, S', root, dir, recs, q);
    NothingOwned(v, root, per, dir, FreeAt(S[dir]) + |recs| - 1);
    OthersSame(v, z, limit, root, per, dir, FreeAt(S[dir]) + |recs| - 1, 0, q);
  }

  /** Every path stats and reads as before. */
  ghost predicate AllUnseen(v: Vol, z: Vol, limit: nat, root: nat, per: nat) {
    Fine(v, limit, per) && Fine(z, limit, per) && forall q: seq<Name> :: Unseen(v, z, limit, root, per, q)
  }

  lemma NothingOwned(v: Vol, root: nat, per: nat, dir: nat, slot: nat)
    requires Fits(v.data, v.L, per) && PerOk(per)
    ensures Owns(v, root, per, dir, slot, 0)
  {
    hide DirItems;
  }
}
