/**
 * From a path to the entry it names, and how each change of a directory changes what
 * paths name (kernel/src/fat.c:602-681).
 */
module Paths {
  import opened Options
  import opened Bytes
  import opened Names
  import opened Chains
  import opened Dirs
  import opened Trees
  import opened Wellformed
  import opened Ops

  // ---------------------------------------------------------------- equal names

  lemma NameEqSteps(a: Name, b: Name, c: Name)
    requires NameEq(a, b) && NameEq(b, c)
    ensures NameEq(a, c) && NameEq(b, a)
  {
    forall i | 0 <= i < |a| ensures Lower(a[i]) == Lower(c[i]) { assert Lower(b[i]) == Lower(c[i]); }
  }

  lemma MatchesEq(slots: Slots, i: nat, a: Name, b: Name)
    requires i < |slots| && NameEq(a, b)
    ensures Matches(slots, i, a) == Matches(slots, i, b)
  {
    hide Dotted, LongName, PendAt, Dirs.Live, NameEq;
    NameEqSym(a, b);
    forall x, y, z | NameEq(x, y) && NameEq(y, z) ensures NameEq(x, z) { NameEqSteps(x, y, z); }
  }

  lemma NameEqSym(a: Name, b: Name)
    ensures NameEq(a, b) == NameEq(b, a) && NameEq(a, a)
  {
  }

  /** Names equal up to case find the same slot. */
  lemma {:induction false} FindEq(slots: Slots, a: Name, b: Name, i: nat)
    requires i <= |slots| && NameEq(a, b)
    ensures FindFrom(slots, a, i) == FindFrom(slots, b, i)
    decreases |slots| - i
  {
    hide Matches, Ended, NameEq;
    if i < |slots| {
      MatchesEq(slots, i, a, b);
      FindEq(slots, a, b, i + 1);
    }
  }

  // ---------------------------------------------------------------- a new name in a directory

  /** A name an entry at slot `s` answers to, spelt `short` on disk. */
  predicate Answers(slots: Slots, s: nat, short: Name, n: Name)
    requires s <= |slots|
  {
    NameEq(short, n) || (LongAt(slots, s) != [] && NameEq(LongAt(slots, s), n))
  }

  predicate FoundBefore(slots: Slots, s: nat, n: Name) { Find(slots, n).Some? && Find(slots, n).value < s }

  /**
   * What makes a new entry for `leaf`, spelt `short`, at slot `s` harmless: it answers to `leaf`,
   * and each of its two names is `leaf` or is found at an earlier slot.
   */
  predicate Harmless(slots: Slots, s: nat, short: Name, leaf: Name)
    requires s <= |slots|
  {
    var long := LongAt(slots, s);
    && Answers(slots, s, short, leaf)
    && (NameEq(short, leaf) || FoundBefore(slots, s, short))
    && (long == [] || NameEq(long, leaf) || FoundBefore(slots, s, long))
  }

  /** An 8.3 name put behind no stale fragments is harmless. */
  lemma CleanIsHarmless(slots: Slots, s: nat, leaf: Name)
    requires s <= |slots| && Fits83(leaf) && PendAt(slots, s) == []
    ensures Harmless(slots, s, Dotted(Short(leaf)), leaf)
  {
    ShortNameRoundTrip(leaf);
  }

  /** The first free slot may hold a new entry. */
  ghost predicate NewAt(slots: Slots, s: nat, e: Entry, leaf: Name) {
    && s < |slots| && s < MAX_SLOTS && FreeSlot(slots[s]) && Tidy(slots)
         && (forall j :: 0 <= j < s ==> !FreeSlot(slots[j]))
    && Dirs.Live(e) && Find(slots, leaf).None?
  }

  lemma NewMatches(slots: Slots, s: nat, e: Entry, leaf: Name, n: Name)
    requires NewAt(slots, s, e, leaf)
    ensures Matches(slots[s := e], s, n) == Answers(slots, s, Dotted(e), n)
  {
    hide Dotted, Short, NameEq;
    PendPrefix(slots, slots[s := e], s);
  }

  /** A harmless entry is found by exactly the names equal to `leaf`; every other name finds what it found. */
  lemma NewNameFound(slots: Slots, s: nat, e: Entry, leaf: Name, n: Name)
    requires NewAt(slots, s, e, leaf) && Harmless(slots, s, Dotted(e), leaf)
    ensures Find(slots[s := e], n) == if NameEq(leaf, n) then Some(s) else Find(slots, n)
  {
    hide Dotted, Short, NameEq, Matches, FindFrom, LongName;
    var short, long := Dotted(e), LongAt(slots, s);
    FindAdded(slots, s, e, n);
    NewMatches(slots, s, e, leaf, n);
    NameEqSym(short, leaf);
    NameEqSym(long, leaf);
    if NameEq(leaf, n) {
      FindEq(slots, leaf, n, 0);
      if NameEq(short, leaf) { NameEqSteps(short, leaf, n); } else { NameEqSteps(long, leaf, n); }
    } else {
      AnswersBefore(slots, s, leaf, short, n);
      if long != [] { AnswersBefore(slots, s, leaf, long, n); }
    }
  }

  lemma AnswersBefore(slots: Slots, s: nat, leaf: Name, x: Name, n: Name)
    requires !NameEq(leaf, n) && (NameEq(x, leaf) || FoundBefore(slots, s, x))
    ensures NameEq(x, n) ==> FoundBefore(slots, s, n)
  {
    hide FindFrom;
    if NameEq(x, n) {
      FindEq(slots, x, n, 0);
      NameEqSym(x, leaf);
      if NameEq(x, leaf) { NameEqSteps(leaf, x, n); }
    }
  }

  /** A new entry is found by exactly the names equal to `leaf` if and only if it is harmless. */
  lemma NewNameExact(slots: Slots, s: nat, e: Entry, leaf: Name)
    requires NewAt(slots, s, e, leaf)
    ensures (forall n: Name :: Find(slots[s := e], n) == if NameEq(leaf, n) then Some(s) else Find(slots, n))
            <==> Harmless(slots, s, Dotted(e), leaf)
  {
    hide Dotted, Short, NameEq, Matches, FindFrom, LongName;
    if Harmless(slots, s, Dotted(e), leaf) {
      forall n: Name ensures Find(slots[s := e], n) == if NameEq(leaf, n) then Some(s) else Find(slots, n) {
        NewNameFound(slots, s, e, leaf, n);
      }
    } else if forall n: Name :: Find(slots[s := e], n) == if NameEq(leaf, n) then Some(s) else Find(slots, n) {
      FoundIsHarmless(slots, s, e, leaf);
    }
  }

  lemma FoundIsHarmless(slots: Slots, s: nat, e: Entry, leaf: Name)
    requires NewAt(slots, s, e, leaf)
    requires forall n: Name :: Find(slots[s := e], n) == if NameEq(leaf, n) then Some(s) else Find(slots, n)
    ensures Harmless(slots, s, Dotted(e), leaf)
  {
    hide Dotted, Short, NameEq, Matches, FindFrom, LongName;
    var short, long := Dotted(e), LongAt(slots, s);
    NameEqSym(leaf, leaf);
    assert Find(slots[s := e], leaf) == Some(s);
    NewMatches(slots, s, e, leaf, leaf);
    AnswersEarly(slots, s, e, leaf, short);
    AnswersEarly(slots, s, e, leaf, long);
  }

  lemma AnswersEarly(slots: Slots, s: nat, e: Entry, leaf: Name, x: Name)
    requires NewAt(slots, s, e, leaf)
    requires Find(slots[s := e], x) == if NameEq(leaf, x) then Some(s) else Find(slots, x)
    ensures Answers(slots, s, Dotted(e), x) ==> NameEq(x, leaf) || FoundBefore(slots, s, x)
    ensures Answers(slots, s, Dotted(e), Dotted(e))
    ensures LongAt(slots, s) != [] ==> Answers(slots, s, Dotted(e), LongAt(slots, s))
  {
    hide Dotted, Short, NameEq, LongName;
    NewMatches(slots, s, e, leaf, x);
    FindAdded(slots, s, e, x);
    NameEqSym(x, leaf);
    NameEqSym(Dotted(e), Dotted(e));
    NameEqSym(LongAt(slots, s), LongAt(slots, s));
  }

  // ---------------------------------------------------------------- an erased name

  /** Once the entry at `s` is erased, a name that found it finds the next match, if any. */
  lemma ErasedNameFound(slots: Slots, s: nat, n: Name)
    requires s < |slots| && Dirs.Live(slots[s])
    ensures Find(slots[s := Erased(slots[s])], n) == if Find(slots, n) == Some(s) then FindFrom(slots, n, s + 1)
        else Find(slots, n)
  {
    var b := slots[s := Erased(slots[s])];
    if Find(slots, n) == Some(s) {
      forall j | 0 <= j < |slots| && j != s ensures Matches(b, j, n) == Matches(slots, j, n) {
        MatchesElsewhere(slots, s, Erased(slots[s]), j, n);
      }
      FindSame(slots, b, n, s + 1);
      FindSkip(b, n, 0, s + 1);
    } else {
      FindRemoved(slots, s, n);
    }
  }

  lemma {:induction false} FindSkip(slots: Slots, n: Name, i: nat, k: nat)
    requires i <= k <= |slots| && k <= MAX_SLOTS && forall j :: i <= j < k ==> !Ended(slots[j]) && !Matches(slots, j, n)
    ensures FindFrom(slots, n, i) == FindFrom(slots, n, k)
    decreases k - i
  {
    hide Matches, Ended;
    if i < k { FindSkip(slots, n, i + 1, k); }
  }

  // ---------------------------------------------------------------- paths

  const SLASH: byte := 47
  const PART_MAX: nat := 79

  /** Length of the component a path starts with. */
  function CompLen(s: Name): (n: nat)
    ensures n <= |s| && (n < |s| ==> s[n] == SLASH) && SLASH !in s[..n]
  {
    if s == [] || s[0] == SLASH then 0
    else
      var n := 1 + CompLen(s[1..]);
      assert s[..n] == [s[0]] + s[1..][..n-1];
      n
  }

  /** The components of a path, each cut to 79 characters. */
  function Parts(s: Name): (r: seq<Name>)
    ensures forall i :: 0 <= i < |r| ==> 0 < |r[i]| <= PART_MAX
    decreases |s|
  {
    if s == [] then []
    else if s[0] == SLASH then Parts(s[1..])
    else [Take(s[..CompLen(s)], PART_MAX)] + Parts(s[CompLen(s)..])
  }

  /**
   * A path without the components "." and "..". The drive layer drops them (kernel/src/fs.c:162-170),
   * but cuts the path it hands down at 127 characters (fs.c:45-52), which can leave one at its end.
   */
  predicate Plain(parts: seq<Name>) { forall i :: 0 <= i < |parts| ==> !DotName(parts[i]) }

  datatype Spot = Top | At(ref: Ref) | Nowhere

  /** Where `n` is found in directory `d`. */
  function SpotIn(S: Tree, d: nat, n: Name): (r: Spot)
    ensures r.At? ==>
        r.ref.dir == d && d in S && r.ref.slot < |S[d]| && Find(S[d], n) == Some(r.ref.slot)
          && Dirs.Live(S[d][r.ref.slot])
    ensures !r.Top?
  {
    if d in S then (match Find(S[d], n) case Some(i) => At(Ref(d, i)) case None => Nowhere) else Nowhere
  }

  /** The directory a found entry names; a first cluster of 0 stands for the root. */
  function Enter(S: Tree, root: nat, spot: Spot): Option<nat>
    requires spot.At? ==> spot.ref.dir in S && spot.ref.slot < |S[spot.ref.dir]|
  {
    if spot.At? && IsDir(S[spot.ref.dir][spot.ref.slot]) then
      var c := EntClus(S[spot.ref.dir][spot.ref.slot]);
      Some(if c != 0 then c else root)
    else None
  }

  function Step(S: Tree, root: nat, d: nat, n: Name): Option<nat> { Enter(S, root, SpotIn(S, d, n)) }

  function Walk(S: Tree, root: nat, d: nat, parts: seq<Name>): Option<nat>
    decreases |parts|
  {
    if parts == [] then Some(d)
    else match Step(S, root, d, parts[0])
         case Some(k) => Walk(S, root, k, parts[1..])
         case None => None
  }

  /** The directory that holds the last component. */
  function Parent(S: Tree, root: nat, parts: seq<Name>): Option<nat>
    requires parts != []
  {
    Walk(S, root, root, parts[..|parts|-1])
  }

  function Last(parts: seq<Name>): Name
    requires parts != []
  {
    parts[|parts|-1]
  }

  function Locate(S: Tree, root: nat, parts: seq<Name>): (r: Spot)
    ensures r.At? ==> r.ref.dir in S && r.ref.slot < |S[r.ref.dir]| && Dirs.Live(S[r.ref.dir][r.ref.slot])
    ensures r.Top? <==> parts == []
  {
    if parts == [] then Top
    else match Parent(S, root, parts)
         case Some(d) => SpotIn(S, d, Last(parts))
         case None => Nowhere
  }

  // ---------------------------------------------------------------- what changes for paths

  /** Every live entry but the one at (dir, slot) that both trees hold reads the same. */
  ghost predicate SameEntries(S: Tree, S': Tree, dir: nat, slot: nat) {
    forall d: nat, i: nat ::
      d in S && d in S' && i < |S[d]| && i < |S'[d]| && (d != dir || i != slot) && Dirs.Live(S[d][i]) ==>
      S'[d][i] == S[d][i] && InfoAt(S'[d], i) == InfoAt(S[d], i)
  }

  /** Nothing, or the one entry that changed. */
  predicate Loose(s: Spot, dir: nat, slot: nat) { s == Nowhere || s == At(Ref(dir, slot)) }

  /**
   * Two trees that differ at (dir, slot) only. `dead` is the directory that entry names, if it
   * names one: it holds no entries of its own.
   */
  ghost predicate Differ(S: Tree, S': Tree, root: nat, dir: nat, slot: nat, dead: nat) {
    && SameEntries(S, S', dir, slot) && dead != dir && dead != root
    && (forall d: nat, n: Name :: !DotName(n) ==>
         SpotIn(S', d, n) == SpotIn(S, d, n)
           || (Loose(SpotIn(S, d, n), dir, slot) && Loose(SpotIn(S', d, n), dir, slot)))
    && (forall n: Name :: !DotName(n) ==> SpotIn(S, dead, n) == Nowhere && SpotIn(S', dead, n) == Nowhere)
    && (forall n: Name :: SpotIn(S, dir, n) == At(Ref(dir, slot)) ==> Closed(Step(S, root, dir, n), dead))
    && (forall n: Name :: SpotIn(S', dir, n) == At(Ref(dir, slot)) ==> Closed(Step(S', root, dir, n), dead))
  }

  predicate Closed(o: Option<nat>, dead: nat) { o == None || o == Some(dead) }

  lemma StepAgrees(S: Tree, S': Tree, root: nat, dir: nat, slot: nat, dead: nat, d: nat, n: Name)
    requires Differ(S, S', root, dir, slot, dead) && !DotName(n)
    ensures Step(S', root, d, n) == Step(S, root, d, n)
        || (Closed(Step(S, root, d, n), dead) && Closed(Step(S', root, d, n), dead))
    ensures d == dead ==> Step(S', root, d, n) == None == Step(S, root, d, n)
  {
    hide FindFrom, EntClus, IsDir;
    var a, b := SpotIn(S, d, n), SpotIn(S', d, n);
    if a == b && a.At? && a != At(Ref(dir, slot)) { assert S'[a.ref.dir][a.ref.slot] == S[a.ref.dir][a.ref.slot]; }
  }

  lemma {:induction false} WalkAgrees(S: Tree, S': Tree, root: nat, dir: nat, slot: nat, dead: nat, d: nat,
                                      parts: seq<Name>)
    requires Differ(S, S', root, dir, slot, dead) && Plain(parts)
    ensures Walk(S', root, d, parts) == Walk(S, root, d, parts)
            || (Closed(Walk(S, root, d, parts), dead) && Closed(Walk(S', root, d, parts), dead))
    ensures d == dead ==> Closed(Walk(S, root, d, parts), dead) && Closed(Walk(S', root, d, parts), dead)
    decreases |parts|
  {
    hide Differ, Step;
    if parts != [] {
      StepAgrees(S, S', root, dir, slot, dead, d, parts[0]);
      WalkAgrees(S, S', root, dir, slot, dead, dead, parts[1..]);
      if Step(S, root, d, parts[0]).Some? {
        WalkAgrees(S, S', root, dir, slot, dead, Step(S, root, d, parts[0]).value, parts[1..]);
      }
    }
  }

  /** A plain path names what it named, or nothing and the changed entry. */
  lemma LocateAgrees(S: Tree, S': Tree, root: nat, dir: nat, slot: nat, dead: nat, parts: seq<Name>)
    requires Differ(S, S', root, dir, slot, dead) && Plain(parts)
    ensures Locate(S', root, parts) == Locate(S, root, parts)
            || (Loose(Locate(S, root, parts), dir, slot) && Loose(Locate(S', root, parts), dir, slot))
    ensures parts != [] ==> (Parent(S', root, parts) == Some(dir) <==> Parent(S, root, parts) == Some(dir))
  {
    if parts != [] {
      WalkAgrees(S, S', root, dir, slot, dead, root, parts[..|parts|-1]);
      hide FindFrom, SameEntries, Walk, Step;
      assert !DotName(Last(parts));
    }
  }

  // ---------------------------------------------------------------- one slot edited

  lemma InfoGrown(slots: Slots, more: Slots, i: nat)
    requires i < |slots|
    ensures InfoAt(slots + more, i) == InfoAt(slots, i)
  {
    hide PendAt, Dirs.Live, Dotted, LongName, EntClus, EntSize;
    assert (slots + more)[..i] == slots[..i];
    PendPrefix(slots + more, slots, i);
  }

  lemma EditedSame(S: Tree, S': Tree, dir: nat, more: Slots, slot: nat, e: Entry)
    requires Edited(S, S', dir, more, slot, e) && !IsLfn(e) && !IsLfn((S[dir] + more)[slot])
    ensures SameEntries(S, S', dir, slot)
  {
    hide IsLfn, InfoAt;
    forall d: nat, i: nat | d in S && d in S' && i < |S[d]| && i < |S'[d]| && (d != dir || i != slot)
      ensures S'[d][i] == S[d][i] && InfoAt(S'[d], i) == InfoAt(S[d], i)
    {
      if d == dir {
        MatchesElsewhere(S[dir] + more, slot, e, i, []);
        InfoGrown(S[dir], more, i);
      }
    }
  }

  /** A file's entry rewritten: every name finds what it found. */
  ghost predicate Rewritten(S: Tree, S': Tree, dir: nat, slot: nat, e: Entry) {
    && Edited(S, S', dir, [], slot, e) && slot < |S[dir]| && Dirs.Live(S[dir][slot]) && e[..12] == S[dir][slot][..12]
    && !IsDir(S[dir][slot]) && (forall k :: k in S' ==> k in S)
  }

  lemma RewrittenFinds(S: Tree, S': Tree, dir: nat, slot: nat, e: Entry, d: nat, n: Name)
    requires Rewritten(S, S', dir, slot, e)
    ensures SpotIn(S', d, n) == SpotIn(S, d, n)
  {
    hide FindFrom, Dirs.Live;
    if d == dir {
      FindRewrite(S[dir], slot, e, n);
      assert S[dir] + [] == S[dir];
    }
  }

  /** A new entry for `leaf` in the first free slot; if it names a directory, `dead`, that one is empty. */
  ghost predicate Entered(S: Tree, S': Tree, root: nat, dir: nat, more: Slots, slot: nat, e: Entry, leaf: Name,
                          dead: nat) {
    && Edited(S, S', dir, more, slot, e) && NewAt(S[dir] + more, slot, e, leaf)
         && Harmless(S[dir] + more, slot, Dotted(e), leaf)
    && (forall k :: k in S' ==> k in S || k == dead) && dead !in S && root in S
    && (IsDir(e) ==> EntClus(e) == dead != 0)
    && (forall n: Name :: !DotName(n) ==> SpotIn(S', dead, n) == Nowhere)
  }

  lemma EnteredFinds(S: Tree, S': Tree, root: nat, dir: nat, more: Slots, slot: nat, e: Entry, leaf: Name, dead: nat,
                     d: nat, n: Name)
    requires Entered(S, S', root, dir, more, slot, e, leaf, dead) && (d == dead ==> !DotName(n))
    ensures SpotIn(S', d, n) == if d == dir && NameEq(leaf, n) then At(Ref(dir, slot)) else SpotIn(S, d, n)
  {
    hide FindFrom, NewAt, Harmless, NameEq, IsDir, EntClus;
    if d == dir {
      FindGrown(S[dir], more, n, 0);
      NewNameFound(S[dir] + more, slot, e, leaf, n);
    }
  }

  lemma EnteredDiffers(S: Tree, S': Tree, root: nat, dir: nat, more: Slots, slot: nat, e: Entry, leaf: Name, dead: nat)
    requires Entered(S, S', root, dir, more, slot, e, leaf, dead)
    requires forall n: Name :: SpotIn(S, dir, n) != At(Ref(dir, slot))
    ensures Differ(S, S', root, dir, slot, dead)
  {
    hide FindFrom, Dotted, Short, SameEntries, Harmless, NameEq, EntClus;
    EditedSame(S, S', dir, more, slot, e);
    EnteredStep(S, S', root, dir, more, slot, e, dead);
    forall d: nat, n: Name | !DotName(n)
      ensures SpotIn(S', d, n) == SpotIn(S, d, n)
          || (Loose(SpotIn(S, d, n), dir, slot) && Loose(SpotIn(S', d, n), dir, slot)) {
      EnteredFinds(S, S', root, dir, more, slot, e, leaf, dead, d, n);
      EnteredWas(S, dir, more, slot, e, leaf, n);
    }
  }

  lemma EnteredWas(S: Tree, dir: nat, more: Slots, slot: nat, e: Entry, leaf: Name, n: Name)
    requires dir in S && NewAt(S[dir] + more, slot, e, leaf) && AllEnded(more)
    ensures NameEq(leaf, n) ==> SpotIn(S, dir, n) == Nowhere
  {
    hide FindFrom, NameEq, Dotted, Short;
    FindGrown(S[dir], more, leaf, 0);
    if NameEq(leaf, n) { FindEq(S[dir], leaf, n, 0); }
  }

  lemma EnteredStep(S: Tree, S': Tree, root: nat, dir: nat, more: Slots, slot: nat, e: Entry, dead: nat)
    requires Edited(S, S', dir, more, slot, e) && (IsDir(e) ==> EntClus(e) == dead != 0)
    ensures forall n: Name :: SpotIn(S', dir, n) == At(Ref(dir, slot)) ==> Closed(Step(S', root, dir, n), dead)
  {
    hide FindFrom, EntClus, IsDir;
  }

  /** The slot of a new entry was found by no name. */
  lemma FreeNotFound(S: Tree, dir: nat, more: Slots, slot: nat, e: Entry, leaf: Name, n: Name)
    requires dir in S && NewAt(S[dir] + more, slot, e, leaf)
    ensures SpotIn(S, dir, n) != At(Ref(dir, slot))
  {
    hide Dotted, Short, NameEq;
  }

  /** An entry erased, and with it the empty directory `dead` if it named one. */
  ghost predicate Removal(S: Tree, S': Tree, root: nat, dir: nat, slot: nat, dead: nat) {
    && dir in S && dir in S' && slot < |S[dir]| && Dirs.Live(S[dir][slot])
         && S'[dir] == S[dir][slot := Erased(S[dir][slot])]
    && (forall k :: k in S' <==> k in S && k != dead) && (forall k :: k in S' && k != dir ==> S'[k] == S[k])
    && dead != dir && dead != root
    && (IsDir(S[dir][slot]) ==> EntClus(S[dir][slot]) == dead != 0)
    && (forall n: Name :: !DotName(n) ==> SpotIn(S, dead, n) == Nowhere)
  }

  /** No name that finds `slot` matches an entry after it; a plain path holds no dot name. */
  ghost predicate NoTwin(slots: Slots, slot: nat)
    requires slot < |slots|
  {
    forall n: Name :: !DotName(n) && Find(slots, n) == Some(slot) ==> FindFrom(slots, n, slot + 1) == None
  }

  lemma GoneFinds(S: Tree, S': Tree, root: nat, dir: nat, slot: nat, dead: nat, d: nat, n: Name)
    requires Removal(S, S', root, dir, slot, dead) && NoTwin(S[dir], slot) && !DotName(n)
    ensures SpotIn(S', d, n) == if SpotIn(S, d, n) == At(Ref(dir, slot)) then Nowhere else SpotIn(S, d, n)
  {
    hide FindFrom, Dirs.Live, IsDir, EntClus;
    if d == dir { ErasedNameFound(S[dir], slot, n); }
  }

  lemma GoneDiffers(S: Tree, S': Tree, root: nat, dir: nat, slot: nat, dead: nat)
    requires Removal(S, S', root, dir, slot, dead) && NoTwin(S[dir], slot)
    ensures Differ(S, S', root, dir, slot, dead)
  {
    hide FindFrom, SameEntries, NoTwin, EntClus;
    GoneSame(S, S', root, dir, slot, dead);
    forall d: nat, n: Name | !DotName(n)
      ensures SpotIn(S', d, n) == SpotIn(S, d, n)
          || (Loose(SpotIn(S, d, n), dir, slot) && Loose(SpotIn(S', d, n), dir, slot)) {
      GoneFinds(S, S', root, dir, slot, dead, d, n);
    }
    forall n: Name ensures SpotIn(S', dir, n) != At(Ref(dir, slot)) { GoneSlot(S, S', root, dir, slot, dead, n); }
  }

  lemma GoneSlot(S: Tree, S': Tree, root: nat, dir: nat, slot: nat, dead: nat, n: Name)
    requires Removal(S, S', root, dir, slot, dead)
    ensures SpotIn(S', dir, n) != At(Ref(dir, slot))
  {
    assert !Dirs.Live(S'[dir][slot]);
  }

  lemma GoneSame(S: Tree, S': Tree, root: nat, dir: nat, slot: nat, dead: nat)
    requires Removal(S, S', root, dir, slot, dead)
    ensures SameEntries(S, S', dir, slot)
  {
    hide InfoAt, FindFrom, IsDir, EntClus;
    forall d: nat, i: nat | d in S && d in S' && i < |S[d]| && i < |S'[d]| && (d != dir || i != slot)
      ensures S'[d][i] == S[d][i] && InfoAt(S'[d], i) == InfoAt(S[d], i)
    {
      if d == dir { MatchesElsewhere(S[dir], slot, Erased(S[dir][slot]), i, []); }
    }
  }

  // ---------------------------------------------------------------- what a path reads

  ghost function TreeOf(v: Vol, per: nat): Tree
    requires Fits(v.data, v.L, per)
  {
    AllSlots(v.data, v.L, per)
  }

  /** The bytes fat_read copies for an entry that starts at `first`. */
  ghost function Contents(v: Vol, limit: nat, per: nat, first: nat, size: nat): (r: seq<byte>)
    requires Fine(v, limit, per)
  {
    ChainsInRange(v.fat, limit, v.L);
    if InChain(first) && first >= limit then [] else ReadFrom(v.fat, v.data, PerBytes(per), first, size)
  }

  const ROOT_NAME: Name := [SLASH]

  /** fat_stat. */
  function Stat(S: Tree, root: nat, parts: seq<Name>): Option<Info> {
    match Locate(S, root, parts)
    case Top => Some(Info(ROOT_NAME, true, 0, root))
    case At(r) => Some(InfoAt(S[r.dir], r.slot))
    case Nowhere => None
  }

  /** The bytes of the file a path names. */
  ghost function FileAt(v: Vol, limit: nat, root: nat, per: nat, parts: seq<Name>): Option<seq<byte>>
    requires Fine(v, limit, per)
  {
    match Stat(TreeOf(v, per), root, parts)
    case Some(i) => if i.dir then None else Some(Contents(v, limit, per, i.cluster, i.size))
    case None => None
  }

  /** What is held is read. */
  lemma HeldBytes(v: Vol, limit: nat, per: nat, first: nat, src: seq<byte>)
    requires Fine(v, limit, per) && HoldsFile(v.data, v.L, PerBytes(per), first, src)
    ensures Contents(v, limit, per, first, |src|) == src
  {
    hide ChainsOk, Stores;
    ChainsInRange(v.fat, limit, v.L);
    if src != [] {
      ChainsAreChains(v.fat, limit, v.L, first);
      HeadInRange(v.fat, limit, v.L, first);
      HeadIs(v.fat, limit, v.L, first);
      ReadBack(v.fat, v.data, PerBytes(per), v.L.chains[first], src);
    }
  }

  lemma HeadIs(fat: seq<nat>, limit: nat, L: Layout, h: nat)
    requires ChainsOk(fat, limit, L) && h in L.chains
    ensures L.chains[h] != [] && L.chains[h][0] == h
  {
    assert HeadOk(L, h);
  }

  /** A kept chain reads the same. */
  lemma KeptContents(v: Vol, z: Vol, limit: nat, per: nat, h: nat, size: nat)
    requires Fine(v, limit, per) && Fine(z, limit, per) && |z.fat| == |v.fat| && h in v.L.chains
    requires SameChain(v.fat, v.data, v.L, z.fat, z.data, z.L, h)
    ensures Contents(z, limit, per, h, size) == Contents(v, limit, per, h, size)
  {
    hide ChainsOk;
    ChainsInRange(v.fat, limit, v.L);
    ChainsInRange(z.fat, limit, z.L);
    ChainsAreChains(v.fat, limit, v.L, h);
    HeadInRange(v.fat, limit, v.L, h);
    HeadIs(v.fat, limit, v.L, h);
    ReadUnchanged(v.fat, v.data, z.fat, z.data, PerBytes(per), v.L.chains[h], size);
  }

  lemma NothingToRead(v: Vol, limit: nat, per: nat, first: nat)
    requires Fine(v, limit, per)
    ensures Contents(v, limit, per, first, 0) == []
  {
    hide ChainsOk;
    ChainsInRange(v.fat, limit, v.L);
  }

  /** Two entries never own the same chain. */
  lemma OwnedApart(D: DirMap, L: Layout, root: nat, d: nat, i: nat, dir: nat, slot: nat)
    requires TreeOk(D, L, root) && Owned(D, root, d, i) && Owned(D, root, dir, slot) && Ref(d, i) != Ref(dir, slot)
    ensures D[d][i].clus != 0 ==> D[d][i].clus != D[dir][slot].clus
    ensures D[d][i].File? && D[d][i].clus == 0 ==> D[d][i].need == 0
    ensures D[d][i].File? && D[d][i].clus != 0 ==> D[d][i].clus in L.chains && D[d][i].clus !in L.depth
  {
    assert EntryOk(D, L, d, i);
    assert EntryOk(D, L, dir, slot);
  }

  lemma OwnedFile(D: DirMap, L: Layout, root: nat, d: nat, i: nat)
    requires TreeOk(D, L, root) && Owned(D, root, d, i) && D[d][i].File?
    ensures if D[d][i].clus == 0 then D[d][i].need == 0 else D[d][i].clus in L.chains && D[d][i].clus !in L.depth
  {
    assert EntryOk(D, L, d, i);
  }

  lemma NoNeed(size: nat, cb: nat)
    requires cb > 0
    ensures NumClus(size, cb) == 0 <==> size == 0
  {
  }

  /** The chain, if any, that the changed entry owned before. */
  ghost predicate Owns(v: Vol, root: nat, per: nat, dir: nat, slot: nat, gone: nat)
    requires Fits(v.data, v.L, per)
  {
    var D := DirItems(v.data, v.L, per);
    gone != 0 ==> Owned(D, root, dir, slot) && D[dir][slot].clus == gone
  }

  lemma HasDots(D: DirMap, L: Layout, root: nat, dir: nat)
    requires TreeOk(D, L, root) && dir in D && dir != root
    ensures dir in L.refs && DotsOk(D[dir], dir, L.refs[dir].dir, root)
  {
    hide EntriesOk, RefsOk;
    assert DirOk(D, L, root, dir);
  }

  lemma DotsFound(s: Slots, dir: nat, parent: nat, root: nat, cb: nat, name: Name)
    requires cb > 0 && DotsOk(ItemsOf(s, cb), dir, parent, root) && DotName(name)
    ensures |s| >= 2 && Find(s, name) == Some(|name| - 1) && IsDir(s[0]) && IsDir(s[1]) && EntClus(s[0]) == dir
    ensures EntClus(s[1]) == parent || (EntClus(s[1]) == 0 && parent == root)
    ensures DotName(Dotted(s[0])) && DotName(Dotted(s[1]))
  {
    hide Dotted, NumClus, EntClus, EntSize, LongName;
    var items := ItemsOf(s, cb);
    assert items[0] == View(s[0], cb) && items[1] == View(s[1], cb);
    assert Dotted(s[0]) == [DOT] && Dotted(s[1]) == [DOT, DOT];
    assert LongAt(s, 0) == [] && LongAt(s, 1) == [] by { NoPend(s); }
    assert FindFrom(s, name, 0) == if name == [DOT] then Some(0) else FindFrom(s, name, 1);
  }

  /** A file is never found by a dot entry. */
  lemma FileHitIsPlain(v: Vol, limit: nat, root: nat, per: nat, d: nat, n: Name, i: nat)
    requires Sound(v, limit, root, per) && PerOk(per) && d in v.L.depth
    requires Find(SlotsAt(v.data, v.L, per, d), n) == Some(i) && !IsDir(SlotsAt(v.data, v.L, per, d)[i])
    ensures !DotName(Dotted(SlotsAt(v.data, v.L, per, d)[i]))
  {
    hide TreeOk, ChainsOk, DirSlots, FindFrom, DirItems, Sized, Dotted, IsDir, DotName;
    if d == root || !DotName(n) {
      HitIsPlain(v.data, v.L, root, per, d, n, i);
    } else {
      HasDots(DirItems(v.data, v.L, per), v.L, root, d);
      DotsFound(SlotsAt(v.data, v.L, per, d), d, v.L.refs[d].dir, root, PerBytes(per), n);
      DotLength(n);
      assert false;
    }
  }

  lemma DotLength(n: Name)
    requires DotName(n)
    ensures |n| == 1 || |n| == 2
  {
  }

  /** A file found elsewhere still reads the same. */
  lemma OtherContents(v: Vol, z: Vol, limit: nat, root: nat, per: nat, d: nat, n: Name, i: nat, dir: nat, slot: nat,
                      gone: nat)
    requires Sound(v, limit, root, per) && Fine(z, limit, per) && |z.fat| == |v.fat| && Kept(v, z, gone) && PerOk(per)
    requires Owns(v, root, per, dir, slot, gone) && d in v.L.depth && Ref(d, i) != Ref(dir, slot)
    requires Find(SlotsAt(v.data, v.L, per, d), n) == Some(i) && !IsDir(SlotsAt(v.data, v.L, per, d)[i])
    ensures var e := SlotsAt(v.data, v.L, per, d)[i];
            Contents(z, limit, per, EntClus(e), EntSize(e)) == Contents(v, limit, per, EntClus(e), EntSize(e))
  {
    hide TreeOk, ChainsOk, DirSlots, FindFrom, EntClus, EntSize, SameChain, Contents, NumClus, DirItems, Sized,
         Dirs.Live, Owned;
    var D, e := DirItems(v.data, v.L, per), SlotsAt(v.data, v.L, per, d)[i];
    FileHitIsPlain(v, limit, root, per, d, n, i);
    HitOwned(v.data, v.L, root, per, d, n, i);
    OwnedLive(D, root, d, i);
    OwnedFile(D, v.L, root, d, i);
    if gone != 0 { OwnedApart(D, v.L, root, d, i, dir, slot); }
    if EntClus(e) == 0 {
      NoNeed(EntSize(e), PerBytes(per));
      NothingToRead(v, limit, per, EntClus(e));
      NothingToRead(z, limit, per, EntClus(e));
    } else {
      KeptContents(v, z, limit, per, EntClus(e), EntSize(e));
    }
  }

  lemma OwnedLive(D: DirMap, root: nat, d: nat, i: nat)
    requires Owned(D, root, d, i)
    ensures d in D && i < |D[d]| && D[d][i].Live()
  {
  }

  /** Paths that name neither what changed nor nothing are as before. */
  lemma OthersSame(v: Vol, z: Vol, limit: nat, root: nat, per: nat, dir: nat, slot: nat, gone: nat, parts: seq<Name>)
    requires Sound(v, limit, root, per) && Fine(z, limit, per) && |z.fat| == |v.fat| && Kept(v, z, gone) && PerOk(per)
    requires Owns(v, root, per, dir, slot, gone)
    requires SameEntries(TreeOf(v, per), TreeOf(z, per), dir, slot)
    requires Locate(TreeOf(z, per), root, parts) == Locate(TreeOf(v, per), root, parts) != At(Ref(dir, slot))
    ensures Stat(TreeOf(z, per), root, parts) == Stat(TreeOf(v, per), root, parts)
    ensures FileAt(z, limit, root, per, parts) == FileAt(v, limit, root, per, parts)
  {
    hide TreeOk, ChainsOk, DirSlots, FindFrom, EntClus, EntSize, SameChain, Contents, DirItems, Sized, Owns, Kept,
         Parent, LongName, Dotted;
    var S, S' := TreeOf(v, per), TreeOf(z, per);
    match Locate(S, root, parts)
    case At(r) =>
      assert InfoAt(S'[r.dir], r.slot) == InfoAt(S[r.dir], r.slot);
      if !IsDir(S[r.dir][r.slot]) {
        OtherContents(v, z, limit, root, per, r.dir, Last(parts), r.slot, dir, slot, gone);
      }
    case Top =>
    case Nowhere =>
  }

  // ---------------------------------------------------------------- what each operation shows to paths

  /** Both paths name the same entry, or would name the same new one. */
  ghost predicate SameFile(S: Tree, root: nat, p: seq<Name>, q: seq<Name>)
    requires p != []
  {
    if Locate(S, root, p).At? then Locate(S, root, q) == Locate(S, root, p)
    else q != [] && Parent(S, root, q) == Parent(S, root, p) && NameEq(Last(p), Last(q))
  }

  /** Path `q` stats and reads as before. */
  ghost predicate Unseen(v: Vol, z: Vol, limit: nat, root: nat, per: nat, q: seq<Name>)
    requires Fine(v, limit, per) && Fine(z, limit, per)
  {
    && Stat(TreeOf(z, per), root, q) == Stat(TreeOf(v, per), root, q)
    && FileAt(z, limit, root, per, q) == FileAt(v, limit, root, per, q)
  }

  lemma TreeFacts(v: Vol, limit: nat, root: nat, per: nat)
    requires Sound(v, limit, root, per)
    ensures 0 !in TreeOf(v, per) && root in TreeOf(v, per)
    ensures forall d :: d in v.L.depth ==> Tidy(TreeOf(v, per)[d])
  {
    hide EntriesOk, RefsOk, View, DirSlots, ChainsOk;
    var D := DirItems(v.data, v.L, per);
    forall d | d in v.L.depth ensures Tidy(TreeOf(v, per)[d]) {
      assert DirOk(D, v.L, root, d);
      TidySlots(SlotsAt(v.data, v.L, per, d), PerBytes(per));
    }
  }

  lemma TidySlots(s: Slots, cb: nat)
    requires cb > 0 && TidyItems(ItemsOf(s, cb))
    ensures Tidy(s)
  {
    hide View;
    var items := ItemsOf(s, cb);
    forall i, j | 0 <= i < j < |s| && Ended(s[i]) ensures Ended(s[j]) {
      assert items[i] == View(s[i], cb) && items[j] == View(s[j], cb);
    }
  }

  /** An entry that a lookup hits owns its chain, unless it is spelt like a dot name. */
  lemma HitOwns(v: Vol, limit: nat, root: nat, per: nat, dir: nat, name: Name, slot: nat)
    requires Sound(v, limit, root, per) && PerOk(per) && dir in v.L.depth
    requires Find(SlotsAt(v.data, v.L, per, dir), name) == Some(slot)
        && !DotName(Dotted(SlotsAt(v.data, v.L, per, dir)[slot]))
    ensures Owns(v, root, per, dir, slot, EntClus(SlotsAt(v.data, v.L, per, dir)[slot]))
  {
    hide TreeOk, ChainsOk, DirSlots, FindFrom, EntClus, DirItems, Sized, Owned;
    HitOwned(v.data, v.L, root, per, dir, name, slot);
  }

  /** After overwriting the file at (dir, slot): every path to it reads the new bytes, every other is as before. */
  lemma OverwriteSeen(v: Vol, z: Vol, limit: nat, root: nat, per: nat, dir: nat, name: Name, slot: nat, first: nat,
                      src: seq<byte>, q: seq<Name>)
    requires Sound(v, limit, root, per) && Fine(z, limit, per) && |z.fat| == |v.fat|
        && HitsFile(v, per, dir, name, slot)
    requires first < 0x1_0000_0000 && |src| < 0x1_0000_0000
    requires Stored(v, z, per, dir, [], slot, Pointing(HitAt(v, per, dir, slot), first, |src|), src,
          EntClus(HitAt(v, per, dir, slot)))
    ensures Locate(TreeOf(z, per), root, q) == Locate(TreeOf(v, per), root, q)
    ensures if Locate(TreeOf(v, per), root, q) == At(Ref(dir, slot)) then FileAt(z, limit, root, per, q) == Some(src)
            else Unseen(v, z, limit, root, per, q)
  {
    hide ChainsOk, TreeOk, DirSlots, FindFrom, EntClus, EntSize, Pointing, Kept, HoldsFile, DirItems, Sized, Contents,
         Owns, Dotted, LongName, PendAt, Dirs.Live, Edited, SameEntries, Differ, AllSlots, Parent;
    var S, S', e := TreeOf(v, per), TreeOf(z, per), HitAt(v, per, dir, slot);
    TreeFacts(v, limit, root, per);
    HitIsLive(v, per, dir, name, slot);
    assert S[dir] == SlotsAt(v.data, v.L, per, dir);
    SameName(Pointing(e, first, |src|), e);
    EditedAt(S, S', dir, slot, Pointing(e, first, |src|));
    assert Rewritten(S, S', dir, slot, Pointing(e, first, |src|));
    assert S[dir] + [] == S[dir];
    LiveNoLfn(e);
    EditedSame(S, S', dir, [], slot, Pointing(e, first, |src|));
    RewrittenLocate(S, S', root, dir, slot, Pointing(e, first, |src|), q);
    HitOwns(v, limit, root, per, dir, name, slot);
    if Locate(S, root, q) == At(Ref(dir, slot)) {
      HeldBytes(z, limit, per, first, src);
    } else {
      OthersSame(v, z, limit, root, per, dir, slot, EntClus(e), q);
    }
  }

  lemma LiveNoLfn(e: Entry)
    ensures Dirs.Live(e) ==> !IsLfn(e)
  {
  }

  lemma EditedAt(S: Tree, S': Tree, dir: nat, slot: nat, e: Entry)
    requires Edited(S, S', dir, [], slot, e)
    ensures dir in S && dir in S' && slot < |S[dir]| && S'[dir] == S[dir][slot := e]
  {
    assert S[dir] + [] == S[dir];
  }

  /** A rewritten entry changes what no path names. */
  lemma RewrittenLocate(S: Tree, S': Tree, root: nat, dir: nat, slot: nat, e: Entry, q: seq<Name>)
    requires Rewritten(S, S', dir, slot, e)
    ensures Locate(S', root, q) == Locate(S, root, q)
  {
    hide SpotIn, Rewritten, Step;
    if q != [] {
      RewrittenWalk(S, S', root, root, dir, slot, e, q[..|q|-1]);
      if Parent(S, root, q).Some? { RewrittenFinds(S, S', dir, slot, e, Parent(S, root, q).value, Last(q)); }
    }
  }

  lemma {:induction false} RewrittenWalk(S: Tree, S': Tree, root: nat, d: nat, dir: nat, slot: nat, e: Entry,
                                         parts: seq<Name>)
    requires Rewritten(S, S', dir, slot, e)
    ensures Walk(S', root, d, parts) == Walk(S, root, d, parts)
    decreases |parts|
  {
    hide Rewritten, Step;
    if parts != [] {
      RewrittenStep(S, S', root, dir, slot, e, d, parts[0]);
      if Step(S, root, d, parts[0]).Some?
        { RewrittenWalk(S, S', root, Step(S, root, d, parts[0]).value, dir, slot, e, parts[1..]); }
    }
  }

  lemma RewrittenStep(S: Tree, S': Tree, root: nat, dir: nat, slot: nat, e: Entry, d: nat, n: Name)
    requires Rewritten(S, S', dir, slot, e)
    ensures Step(S', root, d, n) == Step(S, root, d, n)
  {
    hide FindFrom, Dirs.Live, EntClus;
    RewrittenFinds(S, S', dir, slot, e, d, n);
    assert S[dir] + [] == S[dir];
    SameName(e, S[dir][slot]);
  }

  /** Index of the first free slot, or the length. */
  function FreeAt(slots: Slots): (r: nat)
    ensures r <= |slots| && (forall j :: 0 <= j < r ==> !FreeSlot(slots[j])) && (r < |slots| ==> FreeSlot(slots[r]))
  {
    if slots == [] || FreeSlot(slots[0]) then 0 else 1 + FreeAt(slots[1..])
  }

  /** A new entry for `leaf` would answer to `leaf` and hide nothing. */
  ghost predicate Safe(slots: Slots, leaf: Name) { Harmless(slots, FreeAt(slots), Dotted(Short(leaf)), leaf) }

  /** In a directory without long-name fragments every 8.3 name is safe. */
  lemma ShortIsSafe(slots: Slots, leaf: Name)
    requires Fits83(leaf) && forall i :: 0 <= i < |slots| ==> !IsLfn(slots[i])
    ensures Safe(slots, leaf)
  {
    CleanIsHarmless(slots, FreeAt(slots), leaf);
  }

  lemma HarmlessGrown(slots: Slots, more: Slots, slot: nat, leaf: Name)
    requires FirstSlot(slots + more, slot) && AllEnded(more)
    ensures slot == FreeAt(slots) && (Harmless(slots + more, slot, Dotted(Short(leaf)), leaf) <==> Safe(slots, leaf))
  {
    hide Dotted, Short, NameEq, LongName, FindFrom, PendAt, FreeSlot;
    var a, s := slots + more, FreeAt(slots);
    assert forall j :: 0 <= j < |slots| ==> a[j] == slots[j];
    assert s < |slots| ==> a[s] == slots[s];
    assert |more| > 0 ==> a[|slots|] == more[0] && FreeSlot(more[0]) by { EndedIsFree(more); }
    assert slot == s;
    assert a[..s] == slots[..s];
    PendPrefix(a, slots, s);
    FindGrown(slots, more, Dotted(Short(leaf)), 0);
    FindGrown(slots, more, LongAt(slots, s), 0);
  }

  lemma EndedIsFree(more: Slots)
    requires AllEnded(more)
    ensures forall i :: 0 <= i < |more| ==> FreeSlot(more[i])
  {
  }

  lemma TidyGrown(slots: Slots, more: Slots)
    requires Tidy(slots) && AllEnded(more)
    ensures Tidy(slots + more)
  {
  }

  /** The path names the new entry. */
  ghost predicate NamesNew(S: Tree, root: nat, dir: nat, leaf: Name, q: seq<Name>) {
    q != [] && Parent(S, root, q) == Some(dir) && NameEq(leaf, Last(q))
  }

  /** Where paths lead once `leaf` is entered. */
  lemma EnteredLocate(S: Tree, S': Tree, root: nat, dir: nat, more: Slots, slot: nat, e: Entry, leaf: Name, dead: nat,
                      q: seq<Name>)
    requires Entered(S, S', root, dir, more, slot, e, leaf, dead) && Plain(q)
    ensures SameEntries(S, S', dir, slot)
    ensures if NamesNew(S, root, dir, leaf, q) then Locate(S', root, q) == At(Ref(dir, slot))
        && Locate(S, root, q) == Nowhere
            else Locate(S', root, q) == Locate(S, root, q) != At(Ref(dir, slot))
  {
    hide FindFrom, SameEntries, NewAt, Harmless, NameEq, Dotted, Short, EntClus, IsDir, Edited, Walk;
    forall n: Name
      ensures SpotIn(S, dir, n) != At(Ref(dir, slot))
          { EnteredNotFound(S, S', root, dir, more, slot, e, leaf, dead, n); }
    EnteredDiffers(S, S', root, dir, more, slot, e, leaf, dead);
    LocateAgrees(S, S', root, dir, slot, dead, q);
    if q != [] && Parent(S, root, q) == Some(dir) {
      assert !DotName(Last(q));
      EnteredFinds(S, S', root, dir, more, slot, e, leaf, dead, dir, Last(q));
      EnteredMiss(S, S', root, dir, more, slot, e, leaf, dead, Last(q));
    }
  }

  /** A component that found a directory finds it still. */
  lemma StepKnown(S: Tree, S': Tree, root: nat, dir: nat, more: Slots, slot: nat, e: Entry, leaf: Name, dead: nat,
                  d: nat, n: Name)
    requires Entered(S, S', root, dir, more, slot, e, leaf, dead)
    ensures SpotIn(S, d, n) != Nowhere ==> SpotIn(S', d, n) == SpotIn(S, d, n) != At(Ref(dir, slot))
    ensures Step(S, root, d, n).Some? ==> Step(S', root, d, n) == Step(S, root, d, n)
    ensures !IsDir(e) && dead !in S' ==> Step(S', root, d, n) == Step(S, root, d, n)
    ensures dead !in S' && SpotIn(S, d, n) == Nowhere ==>
              SpotIn(S', d, n) == if d == dir && NameEq(leaf, n) then At(Ref(dir, slot)) else Nowhere
  {
    hide FindFrom, NewAt, Harmless, NameEq, IsDir, EntClus, Dotted;
    EnteredNotFound(S, S', root, dir, more, slot, e, leaf, dead, n);
    if d in S || dead !in S' {
      if d != dead {
        EnteredFinds(S, S', root, dir, more, slot, e, leaf, dead, d, n);
        EnteredMiss(S, S', root, dir, more, slot, e, leaf, dead, n);
      }
      SpotEntry(S, S', dir, more, slot, e, d, n);
    }
  }

  /** An entry found in another slot reads as it did. */
  lemma SpotEntry(S: Tree, S': Tree, dir: nat, more: Slots, slot: nat, e: Entry, d: nat, n: Name)
    requires Edited(S, S', dir, more, slot, e)
    ensures SpotIn(S, d, n) == SpotIn(S', d, n) != At(Ref(dir, slot)) && SpotIn(S, d, n).At? ==>
              var r := SpotIn(S, d, n).ref; S'[r.dir][r.slot] == S[r.dir][r.slot]
    ensures SpotIn(S', d, n) == At(Ref(dir, slot)) ==> S'[dir][slot] == e
  {
    hide FindFrom;
  }

  /** A walk that arrived arrives still, whatever its components; beside a new file all walks are the same. */
  lemma {:induction false} WalkKnown(S: Tree, S': Tree, root: nat, dir: nat, more: Slots, slot: nat, e: Entry,
                                     leaf: Name, dead: nat, d: nat, parts: seq<Name>)
    requires Entered(S, S', root, dir, more, slot, e, leaf, dead)
    ensures Walk(S, root, d, parts).Some? ==> Walk(S', root, d, parts) == Walk(S, root, d, parts)
    ensures !IsDir(e) && dead !in S' ==> Walk(S', root, d, parts) == Walk(S, root, d, parts)
    decreases |parts|
  {
    hide Entered, Step, IsDir;
    if parts != [] {
      StepKnown(S, S', root, dir, more, slot, e, leaf, dead, d, parts[0]);
      if Step(S, root, d, parts[0]).Some? {
        WalkKnown(S, S', root, dir, more, slot, e, leaf, dead, Step(S, root, d, parts[0]).value, parts[1..]);
      }
    }
  }

  /** Where any path that led somewhere leads; and, beside a new file, any path at all. */
  lemma LocateKnown(S: Tree, S': Tree, root: nat, dir: nat, more: Slots, slot: nat, e: Entry, leaf: Name, dead: nat,
                    q: seq<Name>)
    requires Entered(S, S', root, dir, more, slot, e, leaf, dead)
    ensures Locate(S, root, q) != Nowhere ==> Locate(S', root, q) == Locate(S, root, q) != At(Ref(dir, slot))
    ensures !IsDir(e) && dead !in S' && Locate(S, root, q) == Nowhere ==>
              Locate(S', root, q) == if NamesNew(S, root, dir, leaf, q) then At(Ref(dir, slot)) else Nowhere
  {
    hide Entered, Step, IsDir, Walk, SpotIn, NameEq;
    if q != [] {
      WalkKnown(S, S', root, dir, more, slot, e, leaf, dead, root, q[..|q|-1]);
      if Parent(S, root, q).Some? {
        StepKnown(S, S', root, dir, more, slot, e, leaf, dead, Parent(S, root, q).value, Last(q));
      }
    }
  }

  lemma NamesNewMiss(S: Tree, S': Tree, root: nat, dir: nat, more: Slots, slot: nat, e: Entry, leaf: Name, dead: nat,
                     q: seq<Name>)
    requires Entered(S, S', root, dir, more, slot, e, leaf, dead) && NamesNew(S, root, dir, leaf, q)
    ensures Locate(S, root, q) == Nowhere
  {
    hide Entered, Walk, SpotIn, NameEq;
    EnteredMiss(S, S', root, dir, more, slot, e, leaf, dead, Last(q));
  }

  lemma EnteredNotFound(S: Tree, S': Tree, root: nat, dir: nat, more: Slots, slot: nat, e: Entry, leaf: Name, dead: nat,
                        n: Name)
    requires Entered(S, S', root, dir, more, slot, e, leaf, dead)
    ensures SpotIn(S, dir, n) != At(Ref(dir, slot))
  {
    hide Harmless, NameEq, NewAt, SpotIn, Find;
    FreeNotFound(S, dir, more, slot, e, leaf, n);
  }

  lemma EnteredMiss(S: Tree, S': Tree, root: nat, dir: nat, more: Slots, slot: nat, e: Entry, leaf: Name, dead: nat,
                    n: Name)
    requires Entered(S, S', root, dir, more, slot, e, leaf, dead)
    ensures NameEq(leaf, n) ==> SpotIn(S, dir, n) == Nowhere
  {
    hide Harmless, NameEq, NewAt, SpotIn, Find;
    EnteredWas(S, dir, more, slot, e, leaf, n);
  }

  /** The slot an addition filled is where a new entry may go. */
  lemma NewSlot(v: Vol, limit: nat, root: nat, per: nat, dir: nat, more: Slots, slot: nat, e: Entry, leaf: Name)
    requires Sound(v, limit, root, per) && FirstIn(v, per, dir, more, slot) && AllEnded(more)
    requires Dirs.Live(e) && Dotted(e) == Dotted(Short(leaf)) && Find(SlotsAt(v.data, v.L, per, dir), leaf).None?
    requires Safe(SlotsAt(v.data, v.L, per, dir), leaf)
    ensures NewAt(SlotsAt(v.data, v.L, per, dir) + more, slot, e, leaf)
        && Harmless(SlotsAt(v.data, v.L, per, dir) + more, slot, Dotted(e), leaf)
  {
    hide ChainsOk, TreeOk, DirSlots, FindFrom, DirItems, Sized, Dotted, Short, Harmless, Safe, FreeSlot, Dirs.Live,
         AllEnded;
    TreeFacts(v, limit, root, per);
    var s := SlotsAt(v.data, v.L, per, dir);
    assert TreeOf(v, per)[dir] == s;
    TidyGrown(s, more);
    HarmlessGrown(s, more, slot, leaf);
    FindGrownAll(s, more, leaf);
  }

  lemma FindGrownAll(s: Slots, more: Slots, n: Name)
    requires AllEnded(more)
    ensures Find(s + more, n) == Find(s, n)
  {
    FindGrown(s, more, n, 0);
  }

  /** After creating a file: every path to the new name reads its bytes, every other is as before. */
  lemma CreateSeen(v: Vol, z: Vol, limit: nat, root: nat, per: nat, dir: nat, more: Slots, slot: nat, leaf: Name,
                   first: nat, src: seq<byte>, q: seq<Name>)
    requires Sound(v, limit, root, per) && Fine(z, limit, per) && |z.fat| == |v.fat| && PerOk(per)
        && FirstIn(v, per, dir, more, slot)
    requires leaf != [] && first < 0x1_0000_0000 && |src| < 0x1_0000_0000
    requires Stored(v, z, per, dir, more, slot, NewEntry(leaf, ATTR_ARC, first, |src|), src, 0)
    requires Find(SlotsAt(v.data, v.L, per, dir), leaf).None? && Safe(SlotsAt(v.data, v.L, per, dir), leaf)
    ensures if NamesNew(TreeOf(v, per), root, dir, leaf, q) then
              Locate(TreeOf(z, per), root, q) == At(Ref(dir, slot)) && FileAt(z, limit, root, per, q) == Some(src)
            else Locate(TreeOf(z, per), root, q) == Locate(TreeOf(v, per), root, q) && Unseen(v, z, limit, root, per, q)
  {
    hide ChainsOk, TreeOk, DirSlots, FindFrom, NewEntry, Kept, HoldsFile, DirItems, Sized, Contents, Dotted, Short,
         Harmless, Safe, NewAt, LongName, PendAt, Dirs.Live, SameEntries, AllSlots, Parent, EntClus, EntSize, IsDir,
         NamesNew, FirstIn, FirstSlot;
    var S, S', e := TreeOf(v, per), TreeOf(z, per), NewEntry(leaf, ATTR_ARC, first, |src|);
    TreeFacts(v, limit, root, per);
    NewEntryFields(leaf, ATTR_ARC, first, |src|);
    FirstInDir(v, per, dir, more, slot);
    assert S[dir] == SlotsAt(v.data, v.L, per, dir);
    NewSlot(v, limit, root, per, dir, more, slot, e, leaf);
    assert Entered(S, S', root, dir, more, slot, e, leaf, 0);
    LiveNoLfn(e);
    NewLocate(S, S', root, dir, more, slot, e, leaf, q);
    if NamesNew(S, root, dir, leaf, q) {
      EditedSlot(S, S', dir, more, slot, e);
      HeldBytes(z, limit, per, first, src);
    } else {
      OthersSame(v, z, limit, root, per, dir, slot, 0, q);
    }
  }

  /** Where paths lead once a file is entered. */
  lemma NewLocate(S: Tree, S': Tree, root: nat, dir: nat, more: Slots, slot: nat, e: Entry, leaf: Name, q: seq<Name>)
    requires Entered(S, S', root, dir, more, slot, e, leaf, 0) && !IsDir(e) && 0 !in S' && !IsLfn(e)
    ensures SameEntries(S, S', dir, slot)
    ensures if NamesNew(S, root, dir, leaf, q) then Locate(S', root, q) == At(Ref(dir, slot))
            else Locate(S', root, q) == Locate(S, root, q) != At(Ref(dir, slot))
  {
    hide FindFrom, NewAt, Harmless, NameEq, SameEntries, Locate, NamesNew, IsLfn, Dotted, IsDir;
    LocateKnown(S, S', root, dir, more, slot, e, leaf, 0, q);
    if NamesNew(S, root, dir, leaf, q) { NamesNewMiss(S, S', root, dir, more, slot, e, leaf, 0, q); }
    NewSlotFree(S[dir] + more, slot, e, leaf);
    EditedSame(S, S', dir, more, slot, e);
  }

  lemma NewSlotFree(slots: Slots, s: nat, e: Entry, leaf: Name)
    requires NewAt(slots, s, e, leaf)
    ensures s < |slots| && !IsLfn(slots[s])
  {
    hide FindFrom;
  }

  lemma FirstInDir(v: Vol, per: nat, dir: nat, more: Slots, slot: nat)
    requires FirstIn(v, per, dir, more, slot)
    ensures Fits(v.data, v.L, per) && dir in v.L.depth
  {
  }

  lemma EditedSlot(S: Tree, S': Tree, dir: nat, more: Slots, slot: nat, e: Entry)
    requires Edited(S, S', dir, more, slot, e)
    ensures dir in S' && slot < |S'[dir]| && S'[dir][slot] == e
  {
  }

  /** After creating a directory: the new name names it, and every other path is as before. */
  lemma MakeSeen(v: Vol, z: Vol, limit: nat, root: nat, per: nat, dir: nat, more: Slots, slot: nat, leaf: Name, c: nat,
                 up: nat, q: seq<Name>)
    requires Sound(v, limit, root, per) && Fine(z, limit, per) && |z.fat| == |v.fat| && PerOk(per)
        && FirstIn(v, per, dir, more, slot)
    requires leaf != [] && 0 < c < 0x1_0000_0000
    requires MadeDir(v, z, per, dir, more, slot, NewEntry(leaf, ATTR_DIR, c, 0), c, up)
    requires Find(SlotsAt(v.data, v.L, per, dir), leaf).None? && Safe(SlotsAt(v.data, v.L, per, dir), leaf)
    ensures Plain(q) ==>
            if NamesNew(TreeOf(v, per), root, dir, leaf, q) then
              Locate(TreeOf(z, per), root, q) == At(Ref(dir, slot))
                && Enter(TreeOf(z, per), root, At(Ref(dir, slot))) == Some(c)
            else Locate(TreeOf(z, per), root, q) == Locate(TreeOf(v, per), root, q) && Unseen(v, z, limit, root, per, q)
    ensures Locate(TreeOf(v, per), root, q) != Nowhere ==> Unseen(v, z, limit, root, per, q)
    ensures forall n: Name :: !DotName(n) ==> SpotIn(TreeOf(z, per), c, n) == Nowhere
  {
    hide ChainsOk, TreeOk, DirSlots, FindFrom, NewEntry, Kept, HoldsFile, DirItems, Sized, Contents, Dotted, Short,
         Harmless, Safe, NewAt, LongName, PendAt, Dirs.Live, SameEntries, AllSlots, Parent, EntClus, EntSize, IsDir,
         NamesNew, FirstIn, FirstSlot, DotSlots, Stat;
    var S, S', e := TreeOf(v, per), TreeOf(z, per), NewEntry(leaf, ATTR_DIR, c, 0);
    TreeFacts(v, limit, root, per);
    NewEntryFields(leaf, ATTR_DIR, c, 0);
    FirstInDir(v, per, dir, more, slot);
    assert S[dir] == SlotsAt(v.data, v.L, per, dir) && S'[c] == SlotsAt(z.data, z.L, per, c);
    NewSlot(v, limit, root, per, dir, more, slot, e, leaf);
    forall n: Name | !DotName(n) ensures SpotIn(S', c, n) == Nowhere { DotSlotsEmpty(S'[c], c, up, n); }
    assert Entered(S, S', root, dir, more, slot, e, leaf, c);
    EnteredLocate(S, S', root, dir, more, slot, e, leaf, c, []);
    LocateKnown(S, S', root, dir, more, slot, e, leaf, c, q);
    if Locate(S, root, q) != Nowhere { OthersSame(v, z, limit, root, per, dir, slot, 0, q); }
    if Plain(q) {
      EnteredLocate(S, S', root, dir, more, slot, e, leaf, c, q);
      if NamesNew(S, root, dir, leaf, q) {
        EditedSlot(S, S', dir, more, slot, e);
      } else {
        OthersSame(v, z, limit, root, per, dir, slot, 0, q);
      }
    }
  }

  /** A new directory holds nothing but its dot entries. */
  lemma DotSlotsEmpty(s: Slots, c: nat, up: nat, n: Name)
    requires DotSlots(s, c, up) && !DotName(n)
    ensures Find(s, n) == None
  {
    hide Dotted, Short, NewEntry, NameEq, LongName, EntClus, EntSize;
    NewEntryFields([DOT], ATTR_DIR, c, 0);
    NewEntryFields([DOT, DOT], ATTR_DIR, up, 0);
    DotNames();
    if NameEq([DOT], n) { DotsDiffer([DOT], n); }
    if NameEq([DOT, DOT], n) { DotsDiffer([DOT, DOT], n); }
    NoPend(s);
    assert !Matches(s, 0, n) && !Matches(s, 1, n);
    if Find(s, n).Some? { NotFoundTwo(s, n); }
  }

  lemma NoPend(s: Slots)
    requires |s| >= 2 && Dirs.Live(s[0])
    ensures LongAt(s, 0) == [] && LongAt(s, 1) == []
  {
  }

  lemma NotFoundTwo(s: Slots, n: Name)
    requires |s| >= 2 && !Matches(s, 0, n) && !Matches(s, 1, n) && EndsAfterDots(s)
    ensures Find(s, n) == None
  {
    hide Matches;
    if |s| > 2 { assert Ended(s[2]); }
  }

  /** After removing an entry no later entry answers for: its paths name nothing, every other is as before. */
  lemma RemoveSeen(v: Vol, z: Vol, limit: nat, root: nat, per: nat, dir: nat, name: Name, slot: nat, h: nat,
                   q: seq<Name>)
    requires Sound(v, limit, root, per) && Fine(z, limit, per) && |z.fat| == |v.fat| && Plain(q)
    requires HitsEntry(v, per, dir, name, slot, h) && Unlinked(v, z, per, dir, slot, h)
    requires NoTwin(SlotsAt(v.data, v.L, per, dir), slot)
    ensures if Locate(TreeOf(v, per), root, q) == At(Ref(dir, slot)) then Locate(TreeOf(z, per), root, q) == Nowhere
            else Locate(TreeOf(z, per), root, q) == Locate(TreeOf(v, per), root, q) && Unseen(v, z, limit, root, per, q)
  {
    hide ChainsOk, TreeOk, DirSlots, FindFrom, Kept, DirItems, Sized, Contents, Dotted, LongName, PendAt, SameEntries,
         AllSlots, Parent, EntClus, EntSize, NoTwin, Differ, Owns, EmptyDir, Stat, Dirs.Live;
    var S, S' := TreeOf(v, per), TreeOf(z, per);
    var e := SlotsAt(v.data, v.L, per, dir)[slot];
    TreeFacts(v, limit, root, per);
    RemovedTree(v, z, limit, root, per, dir, name, slot, h);
    GoneDiffers(S, S', root, dir, slot, h);
    DifferEntries(S, S', root, dir, slot, h);
    RemovedLocate(S, S', root, dir, slot, h, q);
    HitOwns(v, limit, root, per, dir, name, slot);
    if Locate(S, root, q) != At(Ref(dir, slot)) { OthersSame(v, z, limit, root, per, dir, slot, h, q); }
  }

  lemma DifferEntries(S: Tree, S': Tree, root: nat, dir: nat, slot: nat, dead: nat)
    requires Differ(S, S', root, dir, slot, dead)
    ensures SameEntries(S, S', dir, slot)
  {
  }

  lemma RemovedLocate(S: Tree, S': Tree, root: nat, dir: nat, slot: nat, dead: nat, q: seq<Name>)
    requires Removal(S, S', root, dir, slot, dead) && NoTwin(S[dir], slot) && Differ(S, S', root, dir, slot, dead)
        && Plain(q)
    ensures Locate(S', root, q) == if Locate(S, root, q) == At(Ref(dir, slot)) then Nowhere else Locate(S, root, q)
  {
    hide FindFrom, NoTwin, Differ, Removal, Walk;
    LocateAgrees(S, S', root, dir, slot, dead, q);
    if q != [] && Parent(S, root, q) == Some(dir) {
      assert !DotName(Last(q));
      GoneFinds(S, S', root, dir, slot, dead, dir, Last(q));
    }
  }

  lemma RemovedTree(v: Vol, z: Vol, limit: nat, root: nat, per: nat, dir: nat, name: Name, slot: nat, h: nat)
    requires Sound(v, limit, root, per) && HitsEntry(v, per, dir, name, slot, h) && Unlinked(v, z, per, dir, slot, h)
    ensures Removal(TreeOf(v, per), TreeOf(z, per), root, dir, slot, h)
  {
    hide ChainsOk, TreeOk, DirSlots, FindFrom, Kept, DirItems, Sized, EntClus, EntSize, Dirs.Live, EmptyDir, Owned,
         View;
    var S, S' := TreeOf(v, per), TreeOf(z, per);
    HitOwned(v.data, v.L, root, per, dir, name, slot);
    MatchLive(SlotsAt(v.data, v.L, per, dir), slot, name);
    forall n: Name | !DotName(n) ensures SpotIn(S, h, n) == Nowhere {
      if h in v.L.depth { EmptyFindsNothing(v, limit, root, per, h, n); }
    }
  }

  /** A directory that passes the test answers to no name but the dot names. */
  lemma EmptyFindsNothing(v: Vol, limit: nat, root: nat, per: nat, h: nat, n: Name)
    requires Sound(v, limit, root, per) && h in v.L.depth && h != root && PerOk(per)
        && EmptyDir(SlotsAt(v.data, v.L, per, h)) && !DotName(n)
    ensures Find(SlotsAt(v.data, v.L, per, h), n) == None
  {
    hide ChainsOk, TreeOk, DirSlots, FindFrom, DirItems, Sized, EntClus, Dirs.Live, EmptyDir, Owned, View;
    EmptyOwnsNothing(v, limit, root, per, h);
    match Find(SlotsAt(v.data, v.L, per, h), n)
    case Some(i) =>
      HitIsPlain(v.data, v.L, root, per, h, n, i);
      HitOwned(v.data, v.L, root, per, h, n, i);
      assert false;
    case None =>
  }

  // ---------------------------------------------------------------- whole calls

  /** The walk fails on a path that does not start with a slash. */
  predicate Absolute(path: Name) { path != [] && path[0] == SLASH }

  /** A file in a sound volume has as many bytes as its entry says. */
  lemma FullContents(v: Vol, limit: nat, root: nat, per: nat, d: nat, n: Name, i: nat)
    requires Sound(v, limit, root, per) && PerOk(per) && d in v.L.depth
    requires Find(SlotsAt(v.data, v.L, per, d), n) == Some(i) && !IsDir(SlotsAt(v.data, v.L, per, d)[i])
    ensures var e := SlotsAt(v.data, v.L, per, d)[i];
            && |Contents(v, limit, per, EntClus(e), EntSize(e))| == EntSize(e)
            && (InChain(EntClus(e)) ==> EntClus(e) < limit)
  {
    hide TreeOk, ChainsOk, DirSlots, FindFrom, EntClus, EntSize, NumClus, DirItems, Sized, Dirs.Live, Owned, View,
         Contents;
    var D, e := DirItems(v.data, v.L, per), SlotsAt(v.data, v.L, per, d)[i];
    MatchLive(SlotsAt(v.data, v.L, per, d), i, n);
    FileIsOwned(D, v.L, root, d, i, SlotsAt(v.data, v.L, per, d), PerBytes(per));
    if EntClus(e) == 0 {
      NoNeed(EntSize(e), PerBytes(per));
      NothingToRead(v, limit, per, EntClus(e));
    } else {
      HeadInRange(v.fat, limit, v.L, EntClus(e));
      ChainContents(v, limit, per, EntClus(e), EntSize(e));
    }
  }

  lemma FileIsOwned(D: DirMap, L: Layout, root: nat, d: nat, i: nat, s: Slots, cb: nat)
    requires TreeOk(D, L, root) && d in D && cb > 0 && D[d] == ItemsOf(s, cb) && i < |s| && Dirs.Live(s[i])
        && !IsDir(s[i])
    ensures if EntClus(s[i]) == 0 then NumClus(EntSize(s[i]), cb) == 0
            else EntClus(s[i]) in L.chains && |L.chains[EntClus(s[i])]| == NumClus(EntSize(s[i]), cb)
  {
    hide RefsOk, Dotted, NumClus, EntClus, EntSize, Dirs.Live, IsDir;
    assert DirOk(D, L, root, d);
    assert D[d][i] == View(s[i], cb);
    assert Owned(D, root, d, i);
    assert EntryOk(D, L, d, i);
  }

  lemma ChainContents(v: Vol, limit: nat, per: nat, h: nat, size: nat)
    requires Fine(v, limit, per) && PerOk(per) && h in v.L.chains && |v.L.chains[h]| == NumClus(size, PerBytes(per))
    ensures |Contents(v, limit, per, h, size)| == size
  {
    hide ChainsOk, NumClus;
    ChainsInRange(v.fat, limit, v.L);
    ChainsAreChains(v.fat, limit, v.L, h);
    HeadInRange(v.fat, limit, v.L, h);
    HeadIs(v.fat, limit, v.L, h);
    ReadLength(v.fat, v.data, PerBytes(per), v.L.chains[h], size);
  }

  /** A found directory is one: its first cluster, or the root for 0, heads a directory. */
  lemma HitFolder(v: Vol, limit: nat, root: nat, per: nat, d: nat, n: Name, i: nat)
    requires Sound(v, limit, root, per) && PerOk(per) && d in v.L.depth
    requires Find(SlotsAt(v.data, v.L, per, d), n) == Some(i) && IsDir(SlotsAt(v.data, v.L, per, d)[i])
    ensures var c := EntClus(SlotsAt(v.data, v.L, per, d)[i]); (c == 0 || c in v.L.depth) && root in v.L.depth
  {
    hide TreeOk, ChainsOk, DirSlots, FindFrom, EntClus, NumClus, DirItems, Sized, Dirs.Live, View;
    MatchLive(SlotsAt(v.data, v.L, per, d), i, n);
    FolderIsThere(DirItems(v.data, v.L, per), v.L, root, d, i, SlotsAt(v.data, v.L, per, d), PerBytes(per));
  }

  lemma FolderIsThere(D: DirMap, L: Layout, root: nat, d: nat, i: nat, s: Slots, cb: nat)
    requires TreeOk(D, L, root) && d in D && cb > 0 && D[d] == ItemsOf(s, cb) && i < |s| && Dirs.Live(s[i])
        && IsDir(s[i])
    ensures (EntClus(s[i]) == 0 || EntClus(s[i]) in L.depth) && root in L.depth
  {
    hide Dotted, NumClus, EntClus, EntSize, Dirs.Live, IsDir, TreeOk, Owned;
    assert D[d][i] == View(s[i], cb) && D[d][i].Folder? && D[d][i].clus == EntClus(s[i]);
    RootIsThere(D, L, root);
    if Owned(D, root, d, i) { OwnedFacts(D, L, root, d, i); } else { DotFolder(D, L, root, d, i); }
  }

  lemma RootIsThere(D: DirMap, L: Layout, root: nat)
    requires TreeOk(D, L, root)
    ensures root in L.depth
  {
  }

  /** The dot entries name their directory and its parent. */
  lemma DotFolder(D: DirMap, L: Layout, root: nat, d: nat, i: nat)
    requires TreeOk(D, L, root) && d in D && i < |D[d]| && D[d][i].Live() && !Owned(D, root, d, i)
    ensures D[d][i].clus == 0 || D[d][i].clus in L.depth
  {
    hide EntriesOk;
    assert d != root && i < 2;
    assert DirOk(D, L, root, d);
    if i == 1 {
      hide DirsOk, RefsOk;
      ParentIsThere(D, L, root, d);
    }
  }

  lemma ParentIsThere(D: DirMap, L: Layout, root: nat, d: nat)
    requires TreeOk(D, L, root) && d in L.refs
    ensures L.refs[d].dir in L.depth
  {
    hide EntriesOk, DirsOk;
    assert RefOk(D, L, root, d);
  }

  /** A walk along `parts` stands at `d`, with `rest` to go. */
  ghost predicate Walking(S: Tree, root: nat, parts: seq<Name>, d: nat, rest: seq<Name>) {
    parts != [] && rest != [] && Last(rest) == Last(parts)
      && Parent(S, root, parts) == Walk(S, root, d, rest[..|rest|-1])
  }

  lemma WalkStarts(S: Tree, root: nat, parts: seq<Name>)
    requires parts != []
    ensures Walking(S, root, parts, root, parts)
  {
  }

  lemma WalkEnds(S: Tree, root: nat, parts: seq<Name>, d: nat, rest: seq<Name>)
    requires Walking(S, root, parts, d, rest) && |rest| == 1
    ensures Parent(S, root, parts) == Some(d) && Last(parts) == rest[0]
  {
  }

  /** One component of a walk. */
  lemma WalkGoesOn(S: Tree, root: nat, parts: seq<Name>, d: nat, rest: seq<Name>)
    requires Walking(S, root, parts, d, rest) && |rest| > 1
    ensures match Step(S, root, d, rest[0])
            case Some(k) => Walking(S, root, parts, k, rest[1..])
            case None => Parent(S, root, parts) == None
  {
    hide Step;
    assert rest[..|rest|-1][0] == rest[0] && rest[..|rest|-1][1..] == rest[1..][..|rest[1..]|-1];
  }

  /** The entry at a path, when there is one, with the first cluster it names; 0 otherwise. */
  function TargetClus(S: Tree, root: nat, p: seq<Name>): nat {
    match Locate(S, root, p)
    case At(r) => EntClus(S[r.dir][r.slot])
    case _ => 0
  }

  /** When fat_write succeeds. */
  ghost predicate CanWrite(v: Vol, limit: nat, root: nat, per: nat, p: seq<Name>, need: nat)
    requires Fine(v, limit, per)
  {
    var S := TreeOf(v, per);
    && p != [] && Parent(S, root, p).Some?
    && var d := Parent(S, root, p).value;
       d in S && match Find(S[d], Last(p))
                 case Some(i) => !IsDir(S[d][i]) && |Reusable(v.fat, limit, v.L, EntClus(S[d][i]))| >= need
                 case None => Room(S[d], |FreeSet(v.fat, limit)|, need)
  }

  /** When fat_mkdir succeeds. */
  ghost predicate CanMake(v: Vol, limit: nat, root: nat, per: nat, p: seq<Name>)
    requires Fine(v, limit, per)
  {
    var S := TreeOf(v, per);
    && p != [] && Parent(S, root, p).Some?
    && var d := Parent(S, root, p).value;
       d in S && Find(S[d], Last(p)).None? && Room(S[d], |FreeSet(v.fat, limit)|, 1)
  }

  /** The directory an entry leads to; a first cluster of 0 stands for the root. */
  function Into(root: nat, h: nat): nat { if h == 0 then root else h }

  /** When fat_remove succeeds. */
  ghost predicate CanDelete(S: Tree, root: nat, p: seq<Name>) {
    && Locate(S, root, p).At?
    && var e := S[Locate(S, root, p).ref.dir][Locate(S, root, p).ref.slot];
       IsDir(e) ==> Into(root, EntClus(e)) in S && EmptyDir(S[Into(root, EntClus(e))])
  }

  /** A new entry for the last component, if one is needed, is safe where it goes. */
  ghost predicate SafeTarget(S: Tree, root: nat, p: seq<Name>)
    requires p != []
  {
    Locate(S, root, p).At?
      || (Parent(S, root, p).Some? && Parent(S, root, p).value in S ==> Safe(S[Parent(S, root, p).value], Last(p)))
  }

  /**
   * What a write to `p` did to the tables, whatever the name: the entry there points at the bytes, or a
   * new entry, spelt in 8.3, lies in the first free slot.
   */
  ghost predicate WriteDone(v: Vol, z: Vol, limit: nat, root: nat, per: nat, p: seq<Name>, src: seq<byte>, first: nat,
                            slot: nat, more: Slots)
    requires Fine(v, limit, per) && p != [] && first < 0x1_0000_0000 && |src| < 0x1_0000_0000
  {
    var S := TreeOf(v, per);
    if Locate(S, root, p).At? then
      var r := Locate(S, root, p).ref;
      var e := S[r.dir][r.slot];
      Stored(v, z, per, r.dir, [], r.slot, Pointing(e, first, |src|), src, EntClus(e))
    else
      && Parent(S, root, p).Some? && FirstIn(v, per, Parent(S, root, p).value, more, slot)
      && Stored(v, z, per, Parent(S, root, p).value, more, slot, NewEntry(Last(p), ATTR_ARC, first, |src|), src, 0)
  }

  /** What mkdir of `p` did: a new entry, spelt in 8.3, lies in the first free slot and names a new directory. */
  ghost predicate MakeDone(v: Vol, z: Vol, limit: nat, root: nat, per: nat, p: seq<Name>, c: nat, slot: nat,
                           more: Slots)
    requires Fine(v, limit, per) && p != [] && c < 0x1_0000_0000
  {
    var S := TreeOf(v, per);
    && Parent(S, root, p).Some? && FirstIn(v, per, Parent(S, root, p).value, more, slot)
    && MadeDir(v, z, per, Parent(S, root, p).value, more, slot, NewEntry(Last(p), ATTR_DIR, c, 0), c,
               Up(Parent(S, root, p).value, root))
  }

  lemma WroteOverDone(v: Vol, z: Vol, limit: nat, root: nat, per: nat, p: seq<Name>, dir: nat, slot: nat, first: nat,
                      src: seq<byte>, at: nat, more: Slots)
    requires Fine(v, limit, per) && p != [] && first < 0x1_0000_0000 && |src| < 0x1_0000_0000
    requires Locate(TreeOf(v, per), root, p) == At(Ref(dir, slot)) && HitsFile(v, per, dir, Last(p), slot)
    requires Stored(v, z, per, dir, [], slot, Pointing(HitAt(v, per, dir, slot), first, |src|), src,
          EntClus(HitAt(v, per, dir, slot)))
    ensures WriteDone(v, z, limit, root, per, p, src, first, at, more)
  {
    hide ChainsOk, DataShape, DirSlots, Stored, Pointing, EntClus, FindFrom, Parent;
  }

  /** After a write to `p`: every path to it reads `src`, and every other stats and reads as before. */
  ghost predicate WriteSeen(v: Vol, z: Vol, limit: nat, root: nat, per: nat, p: seq<Name>, src: seq<byte>)
    requires Fine(v, limit, per) && Fine(z, limit, per) && p != []
  {
    forall q: seq<Name> ::
      if SameFile(TreeOf(v, per), root, p, q) then FileAt(z, limit, root, per, q) == Some(src)
      else Unseen(v, z, limit, root, per, q)
  }

  /**
   * After mkdir of `p`: every plain path to it names an empty directory, and every other plain path, and
   * any path that named something, stats and reads as before.
   */
  ghost predicate MakeSeenAll(v: Vol, z: Vol, limit: nat, root: nat, per: nat, p: seq<Name>, c: nat)
    requires Fine(v, limit, per) && Fine(z, limit, per) && p != []
  {
    && (forall q: seq<Name> :: Plain(q) ==>
          if SameFile(TreeOf(v, per), root, p, q) then Enter(TreeOf(z, per), root, Locate(TreeOf(z, per), root, q)) ==
            Some(c)
          else Unseen(v, z, limit, root, per, q))
    && (forall q: seq<Name> :: Locate(TreeOf(v, per), root, q) != Nowhere ==> Unseen(v, z, limit, root, per, q))
    && forall n: Name :: !DotName(n) ==> SpotIn(TreeOf(z, per), c, n) == Nowhere
  }

  /** After removing `p`: its plain paths name nothing, and every other stats and reads as before. */
  ghost predicate RemoveSeenAll(v: Vol, z: Vol, limit: nat, root: nat, per: nat, p: seq<Name>)
    requires Fine(v, limit, per) && Fine(z, limit, per)
  {
    forall q: seq<Name> :: Plain(q) ==>
      if Locate(TreeOf(v, per), root, q) == Locate(TreeOf(v, per), root, p) then Locate(TreeOf(z, per), root, q) ==
        Nowhere
      else Unseen(v, z, limit, root, per, q)
  }

  lemma WroteOver(v: Vol, z: Vol, limit: nat, root: nat, per: nat, p: seq<Name>, dir: nat, slot: nat, first: nat,
                  src: seq<byte>)
    requires Sound(v, limit, root, per) && Fine(z, limit, per) && |z.fat| == |v.fat| && p != []
    requires Locate(TreeOf(v, per), root, p) == At(Ref(dir, slot)) && HitsFile(v, per, dir, Last(p), slot)
    requires first < 0x1_0000_0000 && |src| < 0x1_0000_0000
    requires Stored(v, z, per, dir, [], slot, Pointing(HitAt(v, per, dir, slot), first, |src|), src,
          EntClus(HitAt(v, per, dir, slot)))
    ensures WriteSeen(v, z, limit, root, per, p, src)
  {
    hide Stat, Locate, HitsFile, ChainsOk, TreeOk, DataShape, Fits, Stored, Pointing, EntClus, Unseen, FileAt, HitAt,
         TreeOf;
    forall q: seq<Name>
      ensures if SameFile(TreeOf(v, per), root, p, q) then FileAt(z, limit, root, per, q) == Some(src)
          else Unseen(v, z, limit, root, per, q)
    {
      OverwriteSeen(v, z, limit, root, per, dir, Last(p), slot, first, src, q);
    }
  }

  lemma WroteNew(v: Vol, z: Vol, limit: nat, root: nat, per: nat, p: seq<Name>, dir: nat, more: Slots, slot: nat,
                 first: nat, src: seq<byte>)
    requires Sound(v, limit, root, per) && Fine(z, limit, per) && |z.fat| == |v.fat| && PerOk(per)
        && FirstIn(v, per, dir, more, slot)
    requires p != [] && Last(p) != [] && first < 0x1_0000_0000 && |src| < 0x1_0000_0000
    requires Parent(TreeOf(v, per), root, p) == Some(dir) && Find(SlotsAt(v.data, v.L, per, dir), Last(p)).None?
    requires SafeTarget(TreeOf(v, per), root, p)
    requires Stored(v, z, per, dir, more, slot, NewEntry(Last(p), ATTR_ARC, first, |src|), src, 0)
    ensures WriteSeen(v, z, limit, root, per, p, src)
  {
    hide Stat, ChainsOk, TreeOk, DataShape, Stored, NewEntry, Unseen, FileAt, FirstSlot, Walk, FindFrom, Safe, NameEq,
         DirSlots;
    assert TreeOf(v, per)[dir] == SlotsAt(v.data, v.L, per, dir);
    assert Locate(TreeOf(v, per), root, p) == Nowhere;
    forall q: seq<Name>
      ensures if SameFile(TreeOf(v, per), root, p, q) then FileAt(z, limit, root, per, q) == Some(src)
          else Unseen(v, z, limit, root, per, q)
    {
      CreateSeen(v, z, limit, root, per, dir, more, slot, Last(p), first, src, q);
    }
  }

  lemma MadeNew(v: Vol, z: Vol, limit: nat, root: nat, per: nat, p: seq<Name>, dir: nat, more: Slots, slot: nat, c: nat,
                up: nat)
    requires Sound(v, limit, root, per) && Fine(z, limit, per) && |z.fat| == |v.fat| && PerOk(per)
        && FirstIn(v, per, dir, more, slot)
    requires p != [] && Last(p) != [] && 0 < c < 0x1_0000_0000
    requires Parent(TreeOf(v, per), root, p) == Some(dir) && Find(SlotsAt(v.data, v.L, per, dir), Last(p)).None?
    requires SafeTarget(TreeOf(v, per), root, p)
    requires MadeDir(v, z, per, dir, more, slot, NewEntry(Last(p), ATTR_DIR, c, 0), c, up)
    ensures MakeSeenAll(v, z, limit, root, per, p, c)
  {
    hide Stat, ChainsOk, TreeOk, DataShape, MadeDir, NewEntry, Unseen, FileAt, FirstSlot, Walk, FindFrom, Safe, NameEq,
         DirSlots, Enter, SpotIn;
    assert TreeOf(v, per)[dir] == SlotsAt(v.data, v.L, per, dir);
    SpotMissed(TreeOf(v, per), dir, Last(p));
    assert Locate(TreeOf(v, per), root, p) == Nowhere;
    MakeSeen(v, z, limit, root, per, dir, more, slot, Last(p), c, up, []);
    forall q: seq<Name> | Plain(q)
      ensures if SameFile(TreeOf(v, per), root, p, q) then Enter(TreeOf(z, per), root,
            Locate(TreeOf(z, per), root, q)) == Some(c)
              else Unseen(v, z, limit, root, per, q)
    {
      MakeSeen(v, z, limit, root, per, dir, more, slot, Last(p), c, up, q);
    }
    forall q: seq<Name> | Locate(TreeOf(v, per), root, q) != Nowhere ensures Unseen(v, z, limit, root, per, q) {
      MakeSeen(v, z, limit, root, per, dir, more, slot, Last(p), c, up, q);
    }
  }

  lemma SpotMissed(S: Tree, d: nat, n: Name)
    requires d in S && Find(S[d], n).None?
    ensures SpotIn(S, d, n) == Nowhere
  {
  }

  lemma RemovedAll(v: Vol, z: Vol, limit: nat, root: nat, per: nat, p: seq<Name>, dir: nat, slot: nat, h: nat)
    requires Sound(v, limit, root, per) && Fine(z, limit, per) && |z.fat| == |v.fat| && p != []
    requires HitsEntry(v, per, dir, Last(p), slot, h) && Unlinked(v, z, per, dir, slot, h)
    requires Locate(TreeOf(v, per), root, p) == At(Ref(dir, slot)) && NoTwin(SlotsAt(v.data, v.L, per, dir), slot)
    ensures RemoveSeenAll(v, z, limit, root, per, p)
  {
    hide Stat, Locate, ChainsOk, TreeOk, DataShape, Fits, HitsEntry, Unseen, FileAt, Unlinked, NoTwin, TreeOf, DirSlots,
         FindFrom, SlotsAt, EntClus;
    forall q: seq<Name> | Plain(q)
      ensures if Locate(TreeOf(v, per), root, q) ==
          Locate(TreeOf(v, per), root, p) then Locate(TreeOf(z, per), root, q) == Nowhere
              else Unseen(v, z, limit, root, per, q)
    {
      RemoveSeen(v, z, limit, root, per, dir, Last(p), slot, h, q);
    }
  }

  /** What fat_write meets where the last component is looked up. */
  lemma WriteMeets(v: Vol, limit: nat, root: nat, per: nat, p: seq<Name>, need: nat, dir: nat)
    requires Fine(v, limit, per) && p != [] && Parent(TreeOf(v, per), root, p) == Some(dir) && dir in TreeOf(v, per)
    ensures var s := TreeOf(v, per)[dir];
            match Find(s, Last(p))
            case Some(i) =>
              && Locate(TreeOf(v, per), root, p) == At(Ref(dir, i))
                   && TargetClus(TreeOf(v, per), root, p) == EntClus(s[i])
              && (CanWrite(v, limit, root, per, p, need) <==>
                   !IsDir(s[i]) && |Reusable(v.fat, limit, v.L, EntClus(s[i]))| >= need)
              && !CanMake(v, limit, root, per, p)
            case None =>
              && Locate(TreeOf(v, per), root, p) == Nowhere && TargetClus(TreeOf(v, per), root, p) == 0
              && (CanWrite(v, limit, root, per, p, need) <==> Room(s, |FreeSet(v.fat, limit)|, need))
              && (CanMake(v, limit, root, per, p) <==> Room(s, |FreeSet(v.fat, limit)|, 1))
  {
    hide ChainsOk, DataShape, Fits, FindFrom, Walk, IsDir, EntClus, Room, FreeSet, Reusable, AllSlots;
  }

  lemma WriteMisses(v: Vol, limit: nat, root: nat, per: nat, p: seq<Name>, need: nat)
    requires Fine(v, limit, per) && (p == [] || Parent(TreeOf(v, per), root, p) == None)
    ensures !CanWrite(v, limit, root, per, p, need) && !CanMake(v, limit, root, per, p)
        && !Locate(TreeOf(v, per), root, p).At?
    ensures TargetClus(TreeOf(v, per), root, p) == 0
  {
    hide ChainsOk, DataShape, Fits, FindFrom, Walk, IsDir, EntClus, Room, FreeSet, Reusable, AllSlots;
  }

  /** What fat_remove meets. */
  lemma DeleteMeets(S: Tree, root: nat, p: seq<Name>, dir: nat)
    requires p != [] && Parent(S, root, p) == Some(dir) && dir in S
    ensures match Find(S[dir], Last(p))
            case Some(i) =>
              && Locate(S, root, p) == At(Ref(dir, i))
              && (CanDelete(S, root, p) <==>
                    (IsDir(S[dir][i]) ==>
                       Into(root, EntClus(S[dir][i])) in S && EmptyDir(S[Into(root, EntClus(S[dir][i]))])))
            case None => !CanDelete(S, root, p)
  {
    hide FindFrom, Walk, IsDir, EntClus, EmptyDir, NoTwin;
  }

  lemma DeleteMisses(S: Tree, root: nat, p: seq<Name>)
    requires p == [] || Parent(S, root, p) == None
    ensures !CanDelete(S, root, p)
  {
  }
}
