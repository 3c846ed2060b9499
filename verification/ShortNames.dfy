/**
 * When two names get the same 8.3 spelling from the image builder (tools/make_fat.py:29-49): case and
 * spaces do not matter, and a name that the driver finds by another's spelling is spelt like it.
 */
module ShortNames {
  import opened Bytes
  import opened Names
  import opened Dirs
  import opened LongNames
  import opened Paths
  import opened ImageNames

  lemma LowerSteps(a: byte, b: byte)
    requires Lower(a) == Lower(b)
    ensures Fold(a) == Fold(b) && (a == DOT <==> b == DOT) && (a == SPACE <==> b == SPACE)
        && (a == TILDE <==> b == TILDE)
    ensures Allowed(a) <==> Allowed(b)
  {
  }

  lemma FoldTwice(c: byte)
    ensures Fold(Fold(c)) == Fold(c) && Allowed(Fold(c)) && Fold(c) != DOT && Fold(c) != TILDE
  {
  }

  lemma {:induction false} NoSpacesEq(a: Name, b: Name)
    requires NameEq(a, b)
    ensures NameEq(NoSpaces(a), NoSpaces(b))
    decreases |a|
  {
    if a != [] {
      var n := |a| - 1;
      assert NameEq(a[..n], b[..n]) by { EqPrefix(a, b, n); }
      NoSpacesEq(a[..n], b[..n]);
      LowerSteps(a[n], b[n]);
      EqMore(NoSpaces(a[..n]), NoSpaces(b[..n]), a[n], b[n]);
    }
  }

  lemma EqPrefix(a: Name, b: Name, n: nat)
    requires NameEq(a, b) && n <= |a|
    ensures NameEq(a[..n], b[..n]) && NameEq(a[n..], b[n..])
  {
  }

  lemma EqMore(a: Name, b: Name, x: byte, y: byte)
    requires NameEq(a, b) && Lower(x) == Lower(y)
    ensures NameEq(a + [x], b + [y])
  {
  }

  lemma LastDotEq(a: Name, b: Name)
    requires NameEq(a, b)
    ensures LastDot(a) == LastDot(b)
  {
    hide Lower;
    forall i | 0 <= i < |a| ensures a[i] == DOT <==> b[i] == DOT { LowerSteps(a[i], b[i]); }
  }

  lemma FoldAllEq(a: Name, b: Name)
    requires NameEq(a, b)
    ensures FoldAll(a) == FoldAll(b)
  {
    hide Lower, Fold;
    forall i | 0 <= i < |a| ensures Fold(a[i]) == Fold(b[i]) { LowerSteps(a[i], b[i]); }
  }

  lemma PartsEq(a: Name, b: Name)
    requires NameEq(a, b)
    ensures FullStem(a) == FullStem(b) && FullExt(a) == FullExt(b)
  {
    hide FoldAll, Lower, LastDot, NameEq;
    LastDotEq(a, b);
    assert |a| == |b| by { EqLength(a, b); }
    var d := LastDot(a);
    EqPrefix(a, b, d);
    FoldAllEq(a[..d], b[..d]);
    if d < |a| {
      EqPrefix(a, b, d + 1);
      FoldAllEq(a[d + 1..], b[d + 1..]);
    }
  }

  lemma EqLength(a: Name, b: Name)
    requires NameEq(a, b)
    ensures |a| == |b|
  {
  }

  lemma DotEq(a: Name, b: Name)
    requires NameEq(a, b) && DotName(a)
    ensures a == b
  {
    assert Lower(a[0]) == Lower(b[0]);
    assert |a| == 2 ==> Lower(a[1]) == Lower(b[1]);
  }

  /** Names equal up to case are spelt the same. */
  lemma SameShort(a: Name, b: Name)
    requires NameEq(a, b)
    ensures ShortName(a) == ShortName(b)
  {
    hide FullStem, FullExt, NoSpaces, NameEq, Padded8;
    NoSpacesEq(a, b);
    var n, m := NoSpaces(a), NoSpaces(b);
    PartsEq(n, m);
    NameEqSym(n, m);
    if DotName(n) { DotEq(n, m); }
    if DotName(m) { DotEq(m, n); }
  }

  lemma StemExt(stem: Name, ext: Name)
    requires DOT !in stem && DOT !in ext && SPACE !in stem && SPACE !in ext
    ensures var d := if ext == [] then stem else stem + [DOT] + ext;
            LastDot(d) == |stem| && SPACE !in d && d[..|stem|] == stem && (ext != [] ==> d[|stem| + 1..] == ext)
  {
    if ext != [] {
      var d := stem + [DOT] + ext;
      assert d[|stem|] == DOT;
      forall i | |stem| < i < |d| ensures d[i] != DOT { assert d[i] == ext[i - |stem| - 1]; }
    }
  }

  lemma FoldedTwice(s: Name)
    ensures FoldAll(FoldAll(s)) == FoldAll(s) && DOT !in FoldAll(s) && SPACE !in FoldAll(s) && TILDE !in FoldAll(s)
  {
    hide Fold;
    forall i | 0 <= i < |s| ensures Fold(Fold(s[i])) == Fold(s[i]) && Fold(s[i]) != DOT && Fold(s[i]) != TILDE {
      FoldTwice(s[i]);
    }
  }

  /** A short name that lost nothing is spelt like itself. */
  lemma SpeltTwice(n: Name)
    requires !DotName(NoSpaces(n)) && !TooLong(NoSpaces(n))
    ensures ShortName(Dotted(ShortName(n))) == ShortName(n)
  {
    hide NoSpaces, Dotted, FoldAll, LastDot, Padded8;
    var m := NoSpaces(n);
    var stem, ext := FullStem(m), FullExt(m);
    DottedPadded(stem, ext);
    FoldedTwice(m[..LastDot(m)]);
    if ext != [] { FoldedTwice(m[LastDot(m) + 1..]); }
    StemExt(stem, ext);
    var d := if ext == [] then stem else stem + [DOT] + ext;
    NoSpacesSame(d);
    ShortNameStarts(n);
  }

  /** One that was cut has a tilde, which no name that survives without fragments has. */
  lemma CutHasTilde(n: Name, x: Name)
    requires !DotName(NoSpaces(n)) && TooLong(NoSpaces(n)) && NameEq(Dotted(ShortName(n)), x)
    ensures !Survives(x)
  {
    hide NoSpaces, Dotted, FoldAll, LastDot, Padded8, NameEq;
    var m := NoSpaces(n);
    var stem, ext := Take(FullStem(m), 6) + [TILDE, ONE], Take(FullExt(m), 3);
    FoldedTwice(m[..LastDot(m)]);
    if LastDot(m) < |m| { FoldedTwice(m[LastDot(m) + 1..]); }
    DottedPadded(stem, ext);
    StemExt(stem, ext);
    var d := if ext == [] then stem else stem + [DOT] + ext;
    assert d[|stem| - 2] == TILDE;
    forall i | 0 <= i < |d| && i != |stem| ensures Plain83(d[i]) { CutPlain(m, d, stem, ext, i); }
    TildeFails(d, x, |stem| - 2);
  }

  lemma CutPlain(m: Name, d: Name, stem: Name, ext: Name, i: nat)
    requires stem == Take(FullStem(m), 6) + [TILDE, ONE] && ext == Take(FullExt(m), 3)
    requires d == (if ext == [] then stem else stem + [DOT] + ext) && i < |d| && i != |stem|
    ensures Plain83(d[i])
  {
    hide LastDot;
    if i < |stem| - 2 {
      FoldTwice(m[i]);
    } else if i > |stem| {
      FoldTwice(m[LastDot(m) + 1 + (i - |stem| - 1)]);
    }
  }

  /** A name with a tilde that needs no fragments does not fit 8.3. */
  lemma TildeFails(d: Name, x: Name, k: nat)
    requires NameEq(d, x) && k < |d| && d[k] == TILDE && k != LastDot(d) && SPACE !in d
    requires 0 < LastDot(d) <= 8 && (LastDot(d) < |d| ==> |d| - LastDot(d) - 1 <= 3)
    requires forall i :: 0 <= i < |d| && i != LastDot(d) ==> Plain83(d[i])
    ensures !Survives(x)
  {
    hide Lower, LastDot;
    LastDotEq(d, x);
    forall i | 0 <= i < |d|
      ensures (Allowed(x[i]) <==> Allowed(d[i])) && (x[i] == TILDE <==> d[i] == TILDE) && x[i] != SPACE {
      LowerSteps(d[i], x[i]);
    }
    assert !NeedsLfn(x);
    assert !Allowed(x[k]);
  }

  /** A name that survives and equals another's spelling is spelt like it. */
  lemma SpeltSame(n: Name, x: Name)
    requires !DotName(NoSpaces(n)) && Survives(x) && NameEq(Dotted(ShortName(n)), x)
    ensures ShortName(x) == ShortName(n)
  {
    hide NoSpaces, Dotted, ShortName, Survives, TooLong, NameEq;
    if TooLong(NoSpaces(n)) {
      CutHasTilde(n, x);
    } else {
      SpeltTwice(n);
      SameShort(Dotted(ShortName(n)), x);
    }
  }
}
