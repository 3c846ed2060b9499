/**
 * 8.3 names: how a directory entry spells one and which names survive the
 * trip (kernel/src/fat.c:356-453).
 */
module Names {
  import opened Bytes

  type Name = seq<byte>

  const SPACE: byte := 32
  const DASH: byte := 45
  const DOT: byte := 46
  const UNDERSCORE: byte := 95

  function Lower(c: byte): byte { if 65 <= c <= 90 then c + 32 else c }

  /** ascii_eq and name_eq: equal up to ASCII case (fat.c:356-377). */
  predicate NameEq(a: Name, b: Name) {
    |a| == |b| && forall i :: 0 <= i < |a| ==> Lower(a[i]) == Lower(b[i])
  }

  predicate DotName(n: Name) { n == [DOT] || n == [DOT, DOT] }

  /** Only a dot name equals one. */
  lemma DotsDiffer(a: Name, b: Name)
    requires NameEq(a, b) && DotName(a)
    ensures DotName(b)
  {
    assert Lower(a[0]) == Lower(b[0]);
    assert |a| == 2 ==> Lower(a[1]) == Lower(b[1]);
  }

  predicate Allowed(c: byte) {
    65 <= c <= 90 || 97 <= c <= 122 || 48 <= c <= 57 || c == UNDERSCORE || c == DASH
  }

  /** One character of an 8.3 name: upper case, and '_' for what is not allowed. */
  function Fold(c: byte): (r: byte)
    ensures r != SPACE
    ensures Lower(r) == Lower(c) <==> Allowed(c)
  {
    var u: byte := if 97 <= c <= 122 then c - 32 else c;
    if 65 <= u <= 90 || 48 <= u <= 57 || u == UNDERSCORE || u == DASH then u else UNDERSCORE
  }

  function FoldAll(s: Name): (r: Name)
    ensures |r| == |s| && forall i :: 0 <= i < |s| ==> r[i] == Fold(s[i])
  {
    seq(|s|, i requires 0 <= i < |s| => Fold(s[i]))
  }

  /** Index of the last dot, or the length when there is none. */
  function LastDot(name: Name): (d: nat)
    ensures d <= |name| && (d < |name| ==> name[d] == DOT)
    ensures forall i :: d < i < |name| ==> name[i] != DOT
    ensures d == |name| ==> DOT !in name
  {
    if name == [] then 0
    else
      var n := |name| - 1;
      if name[n] == DOT then n
      else
        var d := LastDot(name[..n]);
        if d == n then n + 1 else d
  }

  function Take(s: Name, n: nat): (r: Name)
    ensures |r| <= n && r <= s && (|s| <= n <==> r == s)
  {
    if |s| < n then s else s[..n]
  }

  function Spaces(n: nat): (r: Name)
    ensures |r| == n
  {
    seq(n, _ => SPACE)
  }

  function Stem(name: Name): (r: Name)
    ensures |r| <= 8 && SPACE !in r
  { FoldAll(Take(name[..LastDot(name)], 8)) }

  function Ext(name: Name): (r: Name)
    ensures |r| <= 3 && SPACE !in r
  {
    var d := LastDot(name);
    if d == |name| then [] else FoldAll(Take(name[d+1..], 3))
  }

  /** The 11 bytes that name a file on disk (encode83). */
  function Short(name: Name): (r: Name)
    ensures |r| == 11
  {
    if name == [DOT] || name == [DOT, DOT] then name + Spaces(11 - |name|)
    else
      (Stem(name) + Spaces(8 - |Stem(name)|)) + (Ext(name) + Spaces(3 - |Ext(name)|))
  }

  function NoSpaces(s: Name): (r: Name)
    ensures |r| <= |s|
  {
    if s == [] then []
    else if s[|s|-1] == SPACE then NoSpaces(s[..|s|-1])
    else NoSpaces(s[..|s|-1]) + [s[|s|-1]]
  }

  /** The dotted name of an entry (decode83). */
  function Dotted(ent: seq<byte>): (r: Name)
    requires |ent| >= 11
    ensures |r| <= 12
  {
    var stem := NoSpaces(ent[..8]);
    var ext := NoSpaces(ent[8..11]);
    if ext == [] then stem else stem + [DOT] + ext
  }

  lemma {:induction false} NoSpacesPadded(s: Name, n: nat)
    requires SPACE !in s
    ensures NoSpaces(s + Spaces(n)) == s
  {
    var t := s + Spaces(n);
    if n > 0 {
      assert t[..|t|-1] == s + Spaces(n - 1);
      NoSpacesPadded(s, n - 1);
    } else if s != [] {
      assert t == s && s[..|s|-1] + Spaces(0) == s[..|s|-1];
      NoSpacesPadded(s[..|s|-1], 0);
    }
  }

  /** At most eight allowed characters, then nothing or a dot and one to three more. */
  predicate Fits83(name: Name) {
    var d := LastDot(name);
    name == [DOT] || name == [DOT, DOT] ||
    (&& d <= 8
     && (d < |name| ==> 1 <= |name| - d - 1 <= 3)
     && forall i :: 0 <= i < |name| && i != d ==> Allowed(name[i]))
  }

  lemma ShortParts(name: Name)
    requires name != [DOT] && name != [DOT, DOT]
    ensures Short(name)[..8] == Stem(name) + Spaces(8 - |Stem(name)|)
    ensures Short(name)[8..11] == Ext(name) + Spaces(3 - |Ext(name)|)
  {
    hide Stem, Ext;
    var s, e := Stem(name) + Spaces(8 - |Stem(name)|), Ext(name) + Spaces(3 - |Ext(name)|);
    assert Short(name) == s + e;
    assert (s + e)[..8] == s && (s + e)[8..11] == e;
  }

  lemma DottedShort(name: Name)
    requires name != [DOT] && name != [DOT, DOT]
    ensures Dotted(Short(name)) == if Ext(name) == [] then Stem(name) else Stem(name) + [DOT] + Ext(name)
  {
    hide NoSpaces, Short, Stem, Ext;
    ShortParts(name);
    NoSpacesPadded(Stem(name), 8 - |Stem(name)|);
    NoSpacesPadded(Ext(name), 3 - |Ext(name)|);
  }

  lemma DotNames()
    ensures Dotted(Short([DOT])) == [DOT] && Dotted(Short([DOT, DOT])) == [DOT, DOT]
  {
    var one, two := Short([DOT]), Short([DOT, DOT]);
    assert one[..8] == [DOT] + Spaces(7) && two[..8] == [DOT, DOT] + Spaces(6);
    assert one[8..11] == [] + Spaces(3) && two[8..11] == [] + Spaces(3);
    NoSpacesPadded([DOT], 7);
    NoSpacesPadded([DOT, DOT], 6);
    NoSpacesPadded([], 3);
  }

  lemma FitsIsFound(name: Name)
    requires name != [DOT] && name != [DOT, DOT] && Fits83(name)
    ensures NameEq(Dotted(Short(name)), name)
  {
    hide Short, Dotted, NoSpaces;
    DottedShort(name);
    var d, r := LastDot(name), Dotted(Short(name));
    var stem, ext := Stem(name), Ext(name);
    assert Take(name[..d], 8) == name[..d];
    if d == |name| {
      assert r == stem && name[..d] == name;
    } else {
      assert Take(name[d+1..], 3) == name[d+1..];
      assert r == stem + [DOT] + ext;
      forall i | 0 <= i < |name| ensures Lower(r[i]) == Lower(name[i]) {
        if i > d { assert r[i] == ext[i-d-1] == Fold(name[i]); }
      }
    }
  }

  lemma FoundFits(name: Name)
    requires name != [DOT] && name != [DOT, DOT] && NameEq(Dotted(Short(name)), name)
    ensures Fits83(name)
  {
    hide Short, Dotted, NoSpaces;
    DottedShort(name);
    var d, r := LastDot(name), Dotted(Short(name));
    var stem, ext := Stem(name), Ext(name);
    assert |stem| == d && (d < |name| ==> |ext| == |name| - d - 1);
    assert Take(name[..d], 8) == name[..d];
    assert d < |name| ==> Take(name[d+1..], 3) == name[d+1..];
    forall i | 0 <= i < |name| && i != d ensures Allowed(name[i]) {
      assert Lower(r[i]) == Lower(name[i]);
      assert r[i] == if i < d then stem[i] else ext[i-d-1];
      assert r[i] == Fold(name[i]);
    }
  }

  /** No other name is spelt like a dot name. */
  lemma NeverDots(name: Name)
    requires !DotName(name)
    ensures !DotName(Dotted(Short(name)))
  {
    hide Short, Dotted, NoSpaces;
    DottedShort(name);
    var stem, ext := Stem(name), Ext(name);
    NoDots(name);
    if ext != [] {
      assert (stem + [DOT] + ext)[|stem| + 1] == ext[0];
      assert |stem| > 0 ==> (stem + [DOT] + ext)[0] == stem[0];
    }
  }

  lemma NoDots(name: Name)
    ensures DOT !in Stem(name) && DOT !in Ext(name)
  {
  }

  /** A name is found again under itself, up to case, exactly when it fits 8.3. */
  lemma ShortNameRoundTrip(name: Name)
    ensures NameEq(Dotted(Short(name)), name) <==> Fits83(name)
  {
    if name == [DOT] || name == [DOT, DOT] {
      DotNames();
    } else if Fits83(name) {
      FitsIsFound(name);
    } else if NameEq(Dotted(Short(name)), name) {
      FoundFits(name);
    }
  }

  // ---------------------------------------------------------------- the loops

  /** encode83 (fat.c:406-453). */
  method Encode83(name: Name) returns (out: Name)
    ensures out == Short(name)
  {
    hide FoldAll, Take, LastDot;
    out := Spaces(11);
    if name == [DOT] {
      return out[0 := DOT];
    }
    if name == [DOT, DOT] {
      return out[0 := DOT][1 := DOT];
    }
    var dot := FindLastDot(name);
    var tmp := FoldSome(name[..dot], 8);
    out := tmp + out[|tmp|..];
    ghost var stem := tmp + Spaces(8 - |tmp|);
    assert out == stem + Spaces(3);
    if dot < |name| && dot + 1 < |name| {
      var ext := FoldSome(name[dot+1..], 3);
      out := out[..8] + ext + out[8 + |ext|..];
      assert out == stem + (ext + Spaces(3 - |ext|));
    }
  }

  /** The copying loop of encode83: at most `max` characters, folded. */
  method FoldSome(src: Name, max: nat) returns (tmp: Name)
    ensures tmp == FoldAll(Take(src, max))
  {
    tmp := [];
    var n := 0;
    while n < |src| && n < max
      invariant n == |tmp| <= |src| && n <= max
      invariant forall i :: 0 <= i < n ==> tmp[i] == Fold(src[i])
    {
      tmp := tmp + [Fold(src[n])];
      n := n + 1;
    }
  }

  method FindLastDot(name: Name) returns (dot: nat)
    ensures dot == LastDot(name)
  {
    var p := 0;
    dot := |name|;
    while p < |name|
      invariant 0 <= p <= |name|
      invariant dot == (if LastDot(name[..p]) == p then |name| else LastDot(name[..p]))
    {
      assert name[..p+1][..p] == name[..p];
      if name[p] == DOT { dot := p; }
      p := p + 1;
    }
    assert name[..p] == name;
  }

  /** decode83 (fat.c:380-403). */
  method Decode83(ent: seq<byte>) returns (out: Name)
    requires |ent| >= 11
    ensures out == Dotted(ent)
  {
    var stem, ext: Name := [], [];
    for i := 0 to 8
      invariant stem == NoSpaces(ent[..i])
    {
      assert ent[..i+1][..i] == ent[..i];
      if ent[i] != SPACE { stem := stem + [ent[i]]; }
    }
    for i := 8 to 11
      invariant ext == NoSpaces(ent[8..i])
    {
      assert ent[8..i+1][..i-8] == ent[8..i];
      if ent[i] != SPACE { ext := ext + [ent[i]]; }
    }
    out := if ext != [] then stem + [DOT] + ext else stem;
  }
}
