/**
 * What a removed entry's names find afterwards. fat_remove erases one slot: the fragments before it
 * stay, and an entry further down that answers to the same name comes to light (kernel/src/fat.c:1036-1043).
 */
module Removals {
  import opened Options
  import opened Bytes
  import opened Names
  import opened Chains
  import opened Dirs
  import opened Trees
  import opened Wellformed
  import opened Ops
  import opened Paths

  // ---------------------------------------------------------------- one directory

  /** Once slot `slot` is passed over, `x` finds nothing, or it never led there. */
  predicate Alone(slots: Slots, slot: nat, x: Name)
    requires slot < |slots|
  {
    DotName(x) || FoundBefore(slots, slot, x) || FindFrom(slots, x, slot + 1).None?
  }

  /** Neither of the entry's two names comes to mean an entry further down. */
  predicate Sole(slots: Slots, slot: nat)
    requires slot < |slots|
  {
    var long := LongAt(slots, slot);
    Alone(slots, slot, Dotted(slots[slot])) && (long == [] || Alone(slots, slot, long))
  }

  /** The entry's own two names stand for all names that find it. */
  lemma SoleExact(slots: Slots, slot: nat, name: Name)
    requires Find(slots, name) == Some(slot)
    ensures Sole(slots, slot) <==> NoTwin(slots, slot)
  {
    hide Dotted, LongName, PendAt, FindFrom, NameEq, Matches;
    var short, long := Dotted(slots[slot]), LongAt(slots, slot);
    FoundLive(slots, slot, name);
    OwnMatches(slots, slot);
    OwnFound(slots, slot, name, short);
    OwnFound(slots, slot, name, long);
    if Sole(slots, slot) {
      forall n: Name | !DotName(n) && Find(slots, n) == Some(slot) ensures FindFrom(slots, n, slot + 1) == None {
        OwnNames(slots, slot, n);
        if NameEq(short, n) { AloneEq(slots, slot, short, n); } else { AloneEq(slots, slot, long, n); }
      }
    }
  }

  /** An entry answers to its own names. */
  lemma OwnMatches(slots: Slots, slot: nat)
    requires slot < |slots| && Dirs.Live(slots[slot])
    ensures Matches(slots, slot, Dotted(slots[slot]))
    ensures LongAt(slots, slot) != [] ==> Matches(slots, slot, LongAt(slots, slot))
  {
    hide Dotted, LongName, PendAt, NameEq;
    NameEqSym(Dotted(slots[slot]), Dotted(slots[slot]));
    NameEqSym(LongAt(slots, slot), LongAt(slots, slot));
  }

  /** And to no others. */
  lemma OwnNames(slots: Slots, slot: nat, n: Name)
    requires Find(slots, n) == Some(slot)
    ensures NameEq(Dotted(slots[slot]), n) || (LongAt(slots, slot) != [] && NameEq(LongAt(slots, slot), n))
  {
    hide Dotted, LongName, PendAt, NameEq;
  }

  /** A name it answers to leads to it or is found before it. */
  lemma OwnFound(slots: Slots, slot: nat, name: Name, x: Name)
    requires Find(slots, name) == Some(slot)
    ensures Matches(slots, slot, x) ==> FoundBefore(slots, slot, x) || Find(slots, x) == Some(slot)
  {
    hide Matches;
  }

  lemma AloneEq(slots: Slots, slot: nat, x: Name, n: Name)
    requires slot < |slots| && NameEq(x, n) && Alone(slots, slot, x) && !DotName(n) && Find(slots, n) == Some(slot)
    ensures FindFrom(slots, n, slot + 1) == None
  {
    hide FindFrom, NameEq;
    if DotName(x) { DotsDiffer(x, n); }
    FindEq(slots, x, n, 0);
    FindEq(slots, x, n, slot + 1);
  }

  /**
   * With the entry at `slot` erased, its names find nothing and every other name finds what it
   * found, if and only if the entry was the only one its two names could mean.
   */
  lemma ErasedExact(slots: Slots, slot: nat, name: Name)
    requires Find(slots, name) == Some(slot)
    ensures (forall n: Name :: !DotName(n) ==>
               Find(slots[slot := Erased(slots[slot])], n) == if Find(slots, n) == Some(slot) then None
                                                              else Find(slots, n))
            <==> Sole(slots, slot)
  {
    hide FindFrom, Sole, Matches;
    assert Dirs.Live(slots[slot]) by { FoundLive(slots, slot, name); }
    SoleExact(slots, slot, name);
    forall n: Name
      ensures Find(slots[slot := Erased(slots[slot])], n) ==
              if Find(slots, n) == Some(slot) then FindFrom(slots, n, slot + 1) else Find(slots, n) {
      ErasedNameFound(slots, slot, n);
    }
  }

  lemma FoundLive(slots: Slots, slot: nat, name: Name)
    requires Find(slots, name) == Some(slot)
    ensures Dirs.Live(slots[slot])
  {
  }

  // ---------------------------------------------------------------- all paths

  /** The entry at `p` is the only one its names can mean. */
  predicate SoleName(S: Tree, root: nat, p: seq<Name>) {
    match Locate(S, root, p)
    case At(r) => Sole(S[r.dir], r.slot)
    case _ => true
  }

  /** What removing `p` did: its entry is marked erased, and the directory it named, if any, is gone. */
  ghost predicate RemoveDone(v: Vol, z: Vol, limit: nat, root: nat, per: nat, p: seq<Name>)
    requires Fine(v, limit, per)
  {
    var S := TreeOf(v, per);
    match Locate(S, root, p)
    case At(r) => Unlinked(v, z, per, r.dir, r.slot, EntClus(S[r.dir][r.slot]))
    case _ => false
  }

  /** Some plain path leads to directory `d`. */
  ghost predicate Reached(S: Tree, root: nat, d: nat) {
    exists q: seq<Name> :: Plain(q) && Walk(S, root, root, q) == Some(d)
  }

  /** Some plain path leads to the directory of `p`; a plain `p` itself does. */
  ghost predicate InReach(S: Tree, root: nat, p: seq<Name>)
    requires p != []
  {
    Parent(S, root, p).Some? && Reached(S, root, Parent(S, root, p).value)
  }

  lemma PlainInReach(S: Tree, root: nat, p: seq<Name>)
    requires p != [] && Plain(p) && Locate(S, root, p).At?
    ensures InReach(S, root, p)
  {
    hide Walk, SpotIn;
    assert Plain(p[..|p|-1]);
  }

  lemma {:induction false} WalkSnoc(S: Tree, root: nat, d: nat, a: seq<Name>, n: Name)
    requires Walk(S, root, d, a).Some?
    ensures Walk(S, root, d, a + [n]) == Step(S, root, Walk(S, root, d, a).value, n)
    decreases |a|
  {
    hide Step;
    if a == [] {
      assert ([] + [n])[1..] == [];
    } else {
      assert (a + [n])[0] == a[0] && (a + [n])[1..] == a[1..] + [n];
      WalkSnoc(S, root, Step(S, root, d, a[0]).value, a[1..], n);
    }
  }

  /** A component that did not end at the erased entry ends where it did. */
  lemma GoneSpot(S: Tree, S': Tree, root: nat, dir: nat, slot: nat, dead: nat, d: nat, n: Name)
    requires Removal(S, S', root, dir, slot, dead) && !DotName(n) && SpotIn(S, d, n) != At(Ref(dir, slot))
    ensures SpotIn(S', d, n) == SpotIn(S, d, n) && Step(S', root, d, n) == Step(S, root, d, n)
  {
    hide FindFrom, Dirs.Live, IsDir, EntClus;
    if d == dir { ErasedNameFound(S[dir], slot, n); }
  }

  /** One that did leads into the directory that went with it, if any; that one was empty. */
  lemma IntoDead(S: Tree, S': Tree, root: nat, dir: nat, slot: nat, dead: nat, d: nat, n: Name)
    requires Removal(S, S', root, dir, slot, dead) && SpotIn(S, d, n) == At(Ref(dir, slot))
    ensures Step(S, root, d, n) == None || Step(S, root, d, n) == Some(dead)
  {
    hide FindFrom, Dirs.Live, IsDir, EntClus;
  }

  lemma DeadEnd(S: Tree, S': Tree, root: nat, dir: nat, slot: nat, dead: nat, parts: seq<Name>)
    requires Removal(S, S', root, dir, slot, dead) && Plain(parts)
    ensures Walk(S, root, dead, parts) == if parts == [] then Some(dead) else None
  {
    hide FindFrom, Dirs.Live, IsDir, EntClus;
  }

  /** A plain walk to the directory written to does not pass the erased entry. */
  lemma {:induction false} WalkStays(S: Tree, S': Tree, root: nat, dir: nat, slot: nat, dead: nat, d: nat,
                                     parts: seq<Name>)
    requires Removal(S, S', root, dir, slot, dead) && Plain(parts) && Walk(S, root, d, parts) == Some(dir)
    ensures Walk(S', root, d, parts) == Some(dir)
    decreases |parts|
  {
    hide SpotIn, Step, Removal;
    if parts != [] {
      if SpotIn(S, d, parts[0]) == At(Ref(dir, slot)) {
        IntoDead(S, S', root, dir, slot, dead, d, parts[0]);
        DeadEnd(S, S', root, dir, slot, dead, parts[1..]);
        DeadElsewhere(S, S', root, dir, slot, dead);
        assert false;
      }
      GoneSpot(S, S', root, dir, slot, dead, d, parts[0]);
      WalkStays(S, S', root, dir, slot, dead, Step(S, root, d, parts[0]).value, parts[1..]);
    }
  }

  lemma DeadElsewhere(S: Tree, S': Tree, root: nat, dir: nat, slot: nat, dead: nat)
    requires Removal(S, S', root, dir, slot, dead)
    ensures dead != dir
  {
  }

  /** If plain paths reach the directory and the removed names are gone for them, the entry was the only one. */
  lemma GoneIsSole(S: Tree, S': Tree, root: nat, dir: nat, slot: nat, dead: nat)
    requires Removal(S, S', root, dir, slot, dead) && Reached(S, root, dir)
    requires forall q: seq<Name> :: Plain(q) && Locate(S, root, q) == At(Ref(dir, slot)) ==>
               Locate(S', root, q) == Nowhere
    ensures NoTwin(S[dir], slot)
  {
    hide FindFrom, Walk, EntClus, Dirs.Live;
    var a :| Plain(a) && Walk(S, root, root, a) == Some(dir);
    WalkStays(S, S', root, dir, slot, dead, root, a);
    forall n: Name | !DotName(n) && Find(S[dir], n) == Some(slot) ensures FindFrom(S[dir], n, slot + 1) == None {
      var q := a + [n];
      assert q[..|q|-1] == a && Plain(q);
      assert Locate(S', root, q) == Nowhere;
      ErasedNameFound(S[dir], slot, n);
    }
  }

  /** Where no plain path reaches the directory, plain walks are as before. */
  lemma {:induction false} WalkAway(S: Tree, S': Tree, root: nat, dir: nat, slot: nat, dead: nat, parts: seq<Name>)
    requires Removal(S, S', root, dir, slot, dead) && Plain(parts) && !Reached(S, root, dir)
    ensures Walk(S', root, root, parts) == Walk(S, root, root, parts) != Some(dir)
    decreases |parts|
  {
    hide SpotIn, Step, Removal;
    if parts != [] {
      var a, n := parts[..|parts|-1], parts[|parts|-1];
      assert parts == a + [n];
      WalkAway(S, S', root, dir, slot, dead, a);
      match Walk(S, root, root, a)
      case Some(d) =>
        WalkSnoc(S, root, root, a, n);
        WalkSnoc(S', root, root, a, n);
        SpotHere(S, d, n);
        GoneSpot(S, S', root, dir, slot, dead, d, n);
      case None =>
        WalkStops(S, root, root, a, n);
        WalkStops(S', root, root, a, n);
    }
  }

  lemma SpotHere(S: Tree, d: nat, n: Name)
    ensures SpotIn(S, d, n).At? ==> SpotIn(S, d, n).ref.dir == d
  {
  }

  lemma {:induction false} WalkStops(S: Tree, root: nat, d: nat, a: seq<Name>, n: Name)
    requires Walk(S, root, d, a) == None
    ensures Walk(S, root, d, a + [n]) == None
    decreases |a|
  {
    hide Step;
    assert a != [] && (a + [n])[0] == a[0] && (a + [n])[1..] == a[1..] + [n];
    if Step(S, root, d, a[0]).Some? { WalkStops(S, root, Step(S, root, d, a[0]).value, a[1..], n); }
  }

  lemma LocateAway(S: Tree, S': Tree, root: nat, dir: nat, slot: nat, dead: nat, q: seq<Name>)
    requires Removal(S, S', root, dir, slot, dead) && Plain(q) && !Reached(S, root, dir)
    ensures Locate(S', root, q) == Locate(S, root, q) != At(Ref(dir, slot))
  {
    hide SpotIn, Step, Removal, Walk, Reached;
    if q != [] {
      WalkAway(S, S', root, dir, slot, dead, q[..|q|-1]);
      assert !DotName(Last(q));
      match Parent(S, root, q)
      case Some(d) =>
        SpotHere(S, d, Last(q));
        GoneSpot(S, S', root, dir, slot, dead, d, Last(q));
      case None =>
    }
  }

  /** Then every plain path stats and reads as before. */
  lemma RemovedUnseen(v: Vol, z: Vol, limit: nat, root: nat, per: nat, p: seq<Name>, dir: nat, slot: nat, h: nat)
    requires Sound(v, limit, root, per) && Fine(z, limit, per) && |z.fat| == |v.fat| && p != []
    requires HitsEntry(v, per, dir, Last(p), slot, h) && Unlinked(v, z, per, dir, slot, h)
    requires Locate(TreeOf(v, per), root, p) == At(Ref(dir, slot)) && !Reached(TreeOf(v, per), root, dir)
    ensures RemoveSeenAll(v, z, limit, root, per, p)
  {
    hide ChainsOk, TreeOk, DataShape, Fits, DirSlots, FindFrom, EntClus, Stat, Locate, FileAt, Kept, EmptyDir, Removal,
         SameEntries, Reached, Owns, Dotted, AllSlots;
    var S, S' := TreeOf(v, per), TreeOf(z, per);
    RemovedTree(v, z, limit, root, per, dir, Last(p), slot, h);
    GoneSame(S, S', root, dir, slot, h);
    HitOwns(v, limit, root, per, dir, Last(p), slot);
    forall q: seq<Name> | Plain(q)
      ensures Locate(S, root, q) != At(Ref(dir, slot)) && Unseen(v, z, limit, root, per, q) {
      LocateAway(S, S', root, dir, slot, h, q);
      OthersSame(v, z, limit, root, per, dir, slot, h, q);
    }
  }

  /**
   * The removed name is gone and every other plain path is as before, if and only if the entry was
   * the only one its names could mean, or no plain path leads to its directory.
   */
  lemma RemovedExact(v: Vol, z: Vol, limit: nat, root: nat, per: nat, p: seq<Name>, dir: nat, slot: nat, h: nat)
    requires Sound(v, limit, root, per) && Fine(z, limit, per) && |z.fat| == |v.fat| && p != []
    requires HitsEntry(v, per, dir, Last(p), slot, h) && Unlinked(v, z, per, dir, slot, h)
    requires Locate(TreeOf(v, per), root, p) == At(Ref(dir, slot)) && Parent(TreeOf(v, per), root, p) == Some(dir)
    ensures RemoveDone(v, z, limit, root, per, p)
    ensures RemoveSeenAll(v, z, limit, root, per, p) <==>
            SoleName(TreeOf(v, per), root, p) || !InReach(TreeOf(v, per), root, p)
  {
    hide ChainsOk, TreeOk, DataShape, Fits, DirSlots, FindFrom, EntClus, Stat, Locate, FileAt, Kept, EmptyDir, Removal,
         Unlinked, Unseen, Reached, Sole, NoTwin, Walk, RemoveSeenAll, Dirs.Live, Dotted, AllSlots;
    var S, S' := TreeOf(v, per), TreeOf(z, per);
    DirSlotsHere(v, limit, per, dir);
    RemovedDone(v, z, limit, root, per, p, dir, slot, h);
    SoleExact(S[dir], slot, Last(p));
    if NoTwin(S[dir], slot) {
      RemovedAll(v, z, limit, root, per, p, dir, slot, h);
    } else if !Reached(S, root, dir) {
      RemovedUnseen(v, z, limit, root, per, p, dir, slot, h);
    } else if RemoveSeenAll(v, z, limit, root, per, p) {
      RemovedTree(v, z, limit, root, per, dir, Last(p), slot, h);
      RemoveSees(v, z, limit, root, per, p);
      GoneIsSole(S, S', root, dir, slot, h);
      assert false;
    }
  }

  lemma RemovedDone(v: Vol, z: Vol, limit: nat, root: nat, per: nat, p: seq<Name>, dir: nat, slot: nat, h: nat)
    requires Fine(v, limit, per) && Locate(TreeOf(v, per), root, p) == At(Ref(dir, slot))
    requires Unlinked(v, z, per, dir, slot, h) && dir in v.L.chains && Sized(v.data, v.L.chains[dir], per)
    requires TreeOf(v, per)[dir] == SlotsAt(v.data, v.L, per, dir) && EntClus(TreeOf(v, per)[dir][slot]) == h
    ensures RemoveDone(v, z, limit, root, per, p)
  {
    hide ChainsOk, DirSlots, Unlinked, Locate, EntClus;
  }

  lemma DirSlotsHere(v: Vol, limit: nat, per: nat, dir: nat)
    requires Fine(v, limit, per) && dir in TreeOf(v, per)
    ensures dir in v.L.chains && Sized(v.data, v.L.chains[dir], per)
        && TreeOf(v, per)[dir] == SlotsAt(v.data, v.L, per, dir)
  {
    hide ChainsOk, DirSlots;
  }

  lemma RemoveSees(v: Vol, z: Vol, limit: nat, root: nat, per: nat, p: seq<Name>)
    requires Fine(v, limit, per) && Fine(z, limit, per) && RemoveSeenAll(v, z, limit, root, per, p)
    ensures forall q: seq<Name> :: Plain(q) && Locate(TreeOf(v, per), root, q) == Locate(TreeOf(v, per), root, p) ==>
              Locate(TreeOf(z, per), root, q) == Nowhere
  {
    hide Locate, Unseen, Fits, ChainsOk;
  }
}
