/**
 * Cluster chains over a plain table of 28-bit entries: what a search finds, what
 * freeing a chain frees, and what a chain stores (kernel/src/fat.c:305-354, 797-829, 887-936).
 */
module Chains {
  import opened Bytes

  const EOC: nat := 0x0FFFFFF8
  const BAD: nat := 0x0FFFFFF7
  const EOC_MARK: nat := 0x0FFFFFFF

  /** The test that keeps a chain walk going. */
  predicate InChain(c: nat) { 2 <= c < EOC }

  /** Every entry that continues a chain names a cluster of the volume. */
  ghost predicate InRange(fat: seq<nat>, limit: nat) {
    limit <= |fat| && forall c :: 2 <= c < limit && InChain(fat[c]) ==> fat[c] < limit
  }

  /** No entry that alloc_clus would take for a read error (fat.c:316-319). */
  ghost predicate NoBad(fat: seq<nat>, limit: nat) {
    limit <= |fat| && forall c :: 3 <= c < limit ==> fat[c] != BAD
  }

  // ---------------------------------------------------------------- next fit

  datatype Search = Found(c: nat) | BadMark | Full

  /** First free entry in [lo, hi), unless an entry equal to BAD comes first. */
  function Scan(fat: seq<nat>, lo: nat, hi: nat): (r: Search)
    requires hi <= |fat|
    ensures r.Found? ==> lo <= r.c < hi && fat[r.c] == 0 && forall c :: lo <= c < r.c ==> fat[c] != 0
    ensures r.Full? ==> forall c :: lo <= c < hi ==> fat[c] != 0
    ensures r.BadMark? ==> exists c :: lo <= c < hi && fat[c] == BAD
    decreases hi - lo
  {
    if lo >= hi then Full
    else if fat[lo] == BAD then BadMark
    else if fat[lo] == 0 then Found(lo)
    else Scan(fat, lo + 1, hi)
  }

  function Start(hint: nat, limit: nat): nat {
    if hint < 3 || hint >= limit then 3 else hint
  }

  /** Two passes: from the hint to the end, then from 3 to the hint. */
  function NextFit(fat: seq<nat>, hint: nat, limit: nat): Search
    requires 3 <= limit <= |fat|
  {
    var start := Start(hint, limit);
    match Scan(fat, start, limit)
    case Full => Scan(fat, 3, start)
    case r => r
  }

  /** When cluster `c` is looked at, counting from the start of the search. */
  function Turn(hint: nat, limit: nat, c: nat): int {
    var start := Start(hint, limit);
    if c >= start then c - start else limit - start + c - 3
  }

  /** `c` is free, and is looked at before every entry that alloc_clus takes for a read error. */
  ghost predicate FreeFirst(fat: seq<nat>, hint: nat, limit: nat, c: nat)
    requires limit <= |fat|
  {
    3 <= c < limit && fat[c] == 0 && forall b :: 3 <= b < limit && fat[b] == BAD ==>
      Turn(hint, limit, c) < Turn(hint, limit, b)
  }

  /** What a scan finds comes before any entry equal to BAD, and what stops it before any free one. */
  lemma {:induction false} ScanFirst(fat: seq<nat>, lo: nat, hi: nat)
    requires hi <= |fat|
    ensures match Scan(fat, lo, hi)
            case Found(c) => forall b :: lo <= b < c ==> fat[b] != BAD
            case BadMark => exists b :: lo <= b < hi && fat[b] == BAD && forall c :: lo <= c < b ==> fat[c] != 0
            case Full => forall b :: lo <= b < hi ==> fat[b] != BAD
    decreases hi - lo
  {
    if lo < hi && fat[lo] != BAD && fat[lo] != 0 { ScanFirst(fat, lo + 1, hi); }
  }

  /**
   * From any hint and on any table: a free cluster is found exactly when one is looked at before
   * every entry equal to BAD; the one found is the first.
   */
  lemma NextFitComplete(fat: seq<nat>, hint: nat, limit: nat)
    requires 3 <= limit <= |fat|
    ensures NextFit(fat, hint, limit).Found? <==> exists c :: FreeFirst(fat, hint, limit, c)
    ensures NextFit(fat, hint, limit).Found? ==>
              var c := NextFit(fat, hint, limit).c;
              FreeFirst(fat, hint, limit, c) && forall k :: 3 <= k < limit && fat[k] == 0 ==>
                Turn(hint, limit, c) <= Turn(hint, limit, k)
    ensures NextFit(fat, hint, limit).Full? <==> forall c :: 3 <= c < limit ==> fat[c] != 0 && fat[c] != BAD
  {
    var start := Start(hint, limit);
    ScanFirst(fat, start, limit);
    ScanFirst(fat, 3, start);
    match NextFit(fat, hint, limit)
    case Found(c) => assert FreeFirst(fat, hint, limit, c);
    case BadMark =>
      var b :| 3 <= b < limit && fat[b] == BAD && forall c :: 3 <= c < limit && fat[c] == 0 ==>
        Turn(hint, limit, b) < Turn(hint, limit, c);
      assert forall c :: !FreeFirst(fat, hint, limit, c);
    case Full =>
  }

  /** Cluster 4 is free, and not found: the search that starts at 3 takes the mark there for a read error. */
  lemma BadHidesFree()
    ensures var fat := [EOC_MARK, EOC_MARK, EOC_MARK, BAD, 0]; fat[4] == 0 && NextFit(fat, 3, 5) == BadMark
  {
  }

  /** Of the clusters in `R`, `c` is the one looked at first. */
  ghost predicate NextOf(R: set<nat>, hint: nat, limit: nat, c: nat) {
    c in R && forall k :: k in R ==> Turn(hint, limit, c) <= Turn(hint, limit, k)
  }

  /** What a run of allocations took begins with what the first of them found. */
  ghost predicate StartsAt(fat: seq<nat>, hint: nat, limit: nat, ch: seq<nat>) {
    ch == [] || (3 <= limit <= |fat| && NextFit(fat, hint, limit) == Found(ch[0]))
  }

  lemma StartsNext(fat: seq<nat>, hint: nat, limit: nat, ch: seq<nat>, c: nat)
    requires limit <= |fat| && StartsAt(fat, hint, limit, ch) && (ch == [] <==> FreeSet(fat, limit) == {})
    ensures ch != [] && ch[0] == c <==> NextOf(FreeSet(fat, limit), hint, limit, c)
  {
    hide NextFit;
    if ch != [] {
      NextFitComplete(fat, hint, limit);
      var d := ch[0];
      assert d in FreeSet(fat, limit) && NextOf(FreeSet(fat, limit), hint, limit, d);
      if NextOf(FreeSet(fat, limit), hint, limit, c) {
        assert Turn(hint, limit, c) == Turn(hint, limit, d);
      }
    }
  }

  /** On a table without such an entry: exactly when there is a free cluster. */
  lemma NextFitFinds(fat: seq<nat>, hint: nat, limit: nat)
    requires 3 <= limit <= |fat| && NoBad(fat, limit)
    ensures NextFit(fat, hint, limit).Found? <==> exists c :: 3 <= c < limit && fat[c] == 0
    ensures NextFit(fat, hint, limit).Found? ==>
              var c := NextFit(fat, hint, limit).c;
              3 <= c < limit && fat[c] == 0
    ensures !NextFit(fat, hint, limit).BadMark?
  {
    NextFitComplete(fat, hint, limit);
    forall c | 3 <= c < limit && fat[c] == 0 ensures FreeFirst(fat, hint, limit, c) {}
  }

  // ---------------------------------------------------------------- reachability

  /** A walk from `c` is at `k` after `n` hops. */
  ghost predicate Visits(fat: seq<nat>, c: nat, k: nat, n: nat)
    decreases n
  {
    InChain(c) && if n == 0 then c == k else c < |fat| && Visits(fat, fat[c], k, n - 1)
  }

  lemma VisitsNext(fat: seq<nat>, c: nat, k: nat, n: nat)
    requires Visits(fat, c, k, n)
    ensures if n == 0 then k == c else c < |fat| && InChain(fat[c])
  {
  }

  ghost predicate Reaches(fat: seq<nat>, c: nat, k: nat) {
    exists n: nat :: Visits(fat, c, k, n)
  }

  /** Clearing the entry of `c` cuts no walk that does not come back to `c`. */
  lemma {:induction false} VisitsCut(fat: seq<nat>, c: nat, x: nat, k: nat, n: nat) returns (m: nat)
    requires c < |fat| && Visits(fat, x, k, n) && k != c
    ensures m <= n && (Visits(fat[c := 0], x, k, m) || Visits(fat, c, k, m))
    decreases n
  {
    if x == c || n == 0 {
      m := n;
    } else {
      var j := VisitsCut(fat, c, fat[x], k, n - 1);
      m := if Visits(fat, c, k, j) then j else j + 1;
    }
  }

  lemma {:induction false} VisitsKept(fat: seq<nat>, c: nat, x: nat, k: nat, n: nat)
    requires c < |fat| && Visits(fat[c := 0], x, k, n)
    ensures Visits(fat, x, k, n)
    decreases n
  {
    if n > 0 && x != c { VisitsKept(fat, c, fat[x], k, n - 1); }
  }

  /** What a walk from `c` reaches, after clearing `c`: itself and what its old next entry reaches. */
  lemma ReachesStep(fat: seq<nat>, c: nat, k: nat)
    requires InChain(c) && c < |fat|
    ensures Reaches(fat, c, k) <==> k == c || Reaches(fat[c := 0], fat[c], k)
  {
    if k == c { assert Visits(fat, c, k, 0); }
    if k != c && Reaches(fat, c, k) {
      var n: nat :| Visits(fat, c, k, n);
      ReachesAvoiding(fat, c, k, n);
    }
    if Reaches(fat[c := 0], fat[c], k) {
      var n: nat :| Visits(fat[c := 0], fat[c], k, n);
      VisitsKept(fat, c, fat[c], k, n);
      assert Visits(fat, c, k, n + 1);
    }
  }

  lemma ReachesStepAll(fat: seq<nat>, c: nat)
    requires InChain(c) && c < |fat|
    ensures forall k: nat :: Reaches(fat, c, k) <==> k == c || Reaches(fat[c := 0], fat[c], k)
  {
    forall k: nat ensures Reaches(fat, c, k) <==> k == c || Reaches(fat[c := 0], fat[c], k) { ReachesStep(fat, c, k); }
  }

  lemma {:induction false} ReachesAvoiding(fat: seq<nat>, c: nat, k: nat, n: nat)
    requires c < |fat| && Visits(fat, c, k, n) && k != c
    ensures Reaches(fat[c := 0], fat[c], k)
    decreases n
  {
    var m := VisitsCut(fat, c, fat[c], k, n - 1);
    if !Visits(fat[c := 0], fat[c], k, m) { ReachesAvoiding(fat, c, k, m); }
  }

  function Used(fat: seq<nat>): (n: nat) {
    if fat == [] then 0 else Used(fat[..|fat| - 1]) + if fat[|fat| - 1] != 0 then 1 else 0
  }

  /** Clearing an entry in use makes one fewer. */
  lemma {:induction false} UsedClear(fat: seq<nat>, c: nat)
    requires c < |fat| && fat[c] != 0
    ensures Used(fat[c := 0]) == Used(fat) - 1
  {
    var n := |fat| - 1;
    if c == n {
      assert fat[c := 0][..n] == fat[..n];
    } else {
      assert fat[c := 0][..n] == fat[..n][c := 0];
      UsedClear(fat[..n], c);
    }
  }

  // ---------------------------------------------------------------- chains

  /** `ch` is a finished chain: distinct clusters of the volume, linked in order, ending at EOC. */
  ghost predicate IsChain(fat: seq<nat>, limit: nat, ch: seq<nat>) {
    && |ch| > 0 && limit <= |fat| && limit <= BAD
    && (forall i :: 0 <= i < |ch| ==> 2 <= ch[i] < limit)
    && (forall i, j :: 0 <= i < j < |ch| ==> ch[i] != ch[j])
    && (forall i :: 0 <= i < |ch| - 1 ==> fat[ch[i]] == ch[i+1])
    && fat[ch[|ch|-1]] >= EOC
  }

  lemma {:induction false} ChainTail(fat: seq<nat>, limit: nat, ch: seq<nat>)
    requires IsChain(fat, limit, ch) && |ch| > 1
    ensures IsChain(fat, limit, ch[1..]) && fat[ch[0]] == ch[1]
  {
  }

  /** A walk from the head of a chain visits its clusters and no others. */
  lemma {:induction false} ChainReaches(fat: seq<nat>, limit: nat, ch: seq<nat>, k: nat)
    requires IsChain(fat, limit, ch)
    ensures Reaches(fat, ch[0], k) <==> k in ch
  {
    if |ch| > 1 {
      ChainTail(fat, limit, ch);
      ChainReaches(fat, limit, ch[1..], k);
      assert ch == [ch[0]] + ch[1..];
      if Reaches(fat, ch[0], k) && k != ch[0] {
        var n: nat :| Visits(fat, ch[0], k, n);
        assert Visits(fat, ch[1], k, n - 1);
      }
      if k in ch[1..] {
        var n: nat :| Visits(fat, ch[1], k, n);
        assert Visits(fat, ch[0], k, n + 1);
      }
    } else if Reaches(fat, ch[0], k) {
      var n: nat :| Visits(fat, ch[0], k, n);
      VisitsNext(fat, ch[0], k, n);
    }
    if k == ch[0] { assert Visits(fat, ch[0], k, 0); }
  }

  // ---------------------------------------------------------------- contents

  function Min(a: nat, b: nat): nat { if a < b then a else b }

  /** `src` cut into pieces of `cb` bytes, the last one possibly short. */
  function Chunks(src: seq<byte>, cb: nat): (r: seq<seq<byte>>)
    requires cb > 0
    ensures |r| == NumClus(|src|, cb)
    ensures forall k :: 0 <= k < |r| ==> 0 < |r[k]| <= cb
    decreases |src|
  {
    if src == [] then []
    else [src[..Min(|src|, cb)]] + Chunks(src[Min(|src|, cb)..], cb)
  }

  function NumClus(size: nat, cb: nat): nat
    requires cb > 0
    decreases size
  {
    if size == 0 then 0 else 1 + NumClus(size - Min(size, cb), cb)
  }

  function Pad(s: seq<byte>, cb: nat): (r: seq<byte>)
    requires |s| <= cb
    ensures |r| == cb && r[..|s|] == s
  {
    s + Zeros(cb - |s|)
  }

  /** What fat_read copies out when it follows the chain from `c` for `left` bytes. */
  ghost function ReadFrom(fat: seq<nat>, data: seq<seq<byte>>, cb: nat, c: nat, left: nat): (r: seq<byte>)
    requires cb > 0 && |data| <= |fat| && InRange(fat, |data|) && (InChain(c) ==> c < |data|)
    requires forall i :: 2 <= i < |data| ==> |data[i]| == cb
    ensures |r| <= left
    decreases left
  {
    if left == 0 || !InChain(c) then []
    else
      var chunk := Min(left, cb);
      data[c][..chunk] + ReadFrom(fat, data, cb, fat[c], left - chunk)
  }

  /** Chain `ch` holds `src`, cluster by cluster and padded with zeros. */
  ghost predicate Stores(data: seq<seq<byte>>, cb: nat, ch: seq<nat>, src: seq<byte>)
    requires cb > 0
  {
    var pieces := Chunks(src, cb);
    && |ch| == |pieces|
    && forall k :: 0 <= k < |ch| ==> ch[k] < |data| && data[ch[k]] == Pad(pieces[k], cb)
  }

  /** The first pieces are written to the clusters of `ch`, and nothing else is. */
  ghost predicate Written(data0: seq<seq<byte>>, data: seq<seq<byte>>, cb: nat, ch: seq<nat>, pieces: seq<seq<byte>>)
  {
    && |ch| <= |pieces| && |data| == |data0|
    && (forall k :: 0 <= k < |ch| ==> ch[k] < |data| && |pieces[k]| <= cb && data[ch[k]] == Pad(pieces[k], cb))
    && (forall c :: 0 <= c < |data| && c !in ch ==> data[c] == data0[c])
  }

  lemma WrittenNone(data: seq<seq<byte>>, cb: nat, pieces: seq<seq<byte>>)
    ensures Written(data, data, cb, [], pieces)
  {
  }

  lemma WrittenStep(data0: seq<seq<byte>>, data: seq<seq<byte>>, cb: nat, ch: seq<nat>, pieces: seq<seq<byte>>, c: nat)
    requires Written(data0, data, cb, ch, pieces) && c < |data| && c !in ch && |ch| < |pieces| && |pieces[|ch|]| <= cb
    ensures Written(data0, data[c := Pad(pieces[|ch|], cb)], cb, ch + [c], pieces)
  {
    var ch' := ch + [c];
    assert forall k :: 0 <= k < |ch| ==> ch[k] != c;
    forall x | 0 <= x < |data| && x !in ch'
      ensures x !in ch && x != c { assert ch'[|ch|] == c; assert x in ch ==> x in ch'; }
  }

  /** Reading back a chain that stores `src` gives `src`. */
  lemma {:induction false} ReadBack(fat: seq<nat>, data: seq<seq<byte>>, cb: nat, ch: seq<nat>, src: seq<byte>)
    requires cb > 0 && |data| <= |fat| && InRange(fat, |data|)
    requires forall i :: 2 <= i < |data| ==> |data[i]| == cb
    requires IsChain(fat, |data|, ch) && Stores(data, cb, ch, src)
    ensures ReadFrom(fat, data, cb, ch[0], |src|) == src
  {
    hide Stores, ReadFrom, Chunks;
    var chunk := Min(|src|, cb);
    var rest := src[chunk..];
    StoresTail(data, cb, ch, src);
    if |ch| > 1 {
      ChainTail(fat, |data|, ch);
      ReadBack(fat, data, cb, ch[1..], rest);
    } else {
      ReadNone(fat, data, cb, fat[ch[0]]);
    }
    ReadStep(fat, data, cb, ch[0], |src|);
    assert src == src[..chunk] + rest;
  }

  lemma ReadStep(fat: seq<nat>, data: seq<seq<byte>>, cb: nat, c: nat, left: nat)
    requires cb > 0 && |data| <= |fat| && InRange(fat, |data|) && InChain(c) && c < |data| && left > 0
    requires forall i :: 2 <= i < |data| ==> |data[i]| == cb
    ensures var chunk := Min(left, cb);
            ReadFrom(fat, data, cb, c, left) == data[c][..chunk] + ReadFrom(fat, data, cb, fat[c], left - chunk)
  {
  }

  lemma ReadNone(fat: seq<nat>, data: seq<seq<byte>>, cb: nat, c: nat)
    requires cb > 0 && |data| <= |fat| && InRange(fat, |data|) && (InChain(c) ==> c < |data|)
    requires forall i :: 2 <= i < |data| ==> |data[i]| == cb
    ensures ReadFrom(fat, data, cb, c, 0) == []
  {
  }

  /** The first cluster of a chain begins with the first piece, and the others hold the rest. */
  lemma StoresTail(data: seq<seq<byte>>, cb: nat, ch: seq<nat>, src: seq<byte>)
    requires cb > 0 && Stores(data, cb, ch, src) && |ch| > 0 && ch[0] < |data| && |data[ch[0]]| == cb
    ensures |src| > 0 && data[ch[0]][..Min(|src|, cb)] == src[..Min(|src|, cb)]
    ensures Stores(data, cb, ch[1..], src[Min(|src|, cb)..]) && (|ch| == 1 <==> |src| <= cb)
  {
    hide Pad, Chunks;
    var chunk, pieces := Min(|src|, cb), Chunks(src, cb);
    ChunksNone(src, cb);
    ChunksHead(src, cb);
    assert pieces[1..] == Chunks(src[chunk..], cb);
    forall k | 0 <= k < |ch| - 1 ensures data[ch[1..][k]] == Pad(Chunks(src[chunk..], cb)[k], cb) {
      assert data[ch[k+1]] == Pad(pieces[k+1], cb);
    }
    ChunksNone(src[chunk..], cb);
  }

  lemma ChunksNone(src: seq<byte>, cb: nat)
    requires cb > 0
    ensures Chunks(src, cb) == [] <==> src == []
  {
  }

  /** A chain reads the same when its links and clusters are unchanged. */
  lemma {:induction false} ReadUnchanged(fat: seq<nat>, data: seq<seq<byte>>, fat': seq<nat>, data': seq<seq<byte>>,
                                         cb: nat, ch: seq<nat>, left: nat)
    requires cb > 0 && |data| == |data'| <= |fat| && |fat'| == |fat| && InRange(fat, |data|) && InRange(fat', |data|)
    requires forall i :: 2 <= i < |data| ==> |data[i]| == |data'[i]| == cb
    requires IsChain(fat, |data|, ch)
    requires forall c :: c in ch ==> fat[c] == fat'[c] && data[c] == data'[c]
    ensures ReadFrom(fat', data', cb, ch[0], left) == ReadFrom(fat, data, cb, ch[0], left)
    decreases |ch|
  {
    if left > 0 && |ch| > 1 {
      ChainTail(fat, |data|, ch);
      ReadUnchanged(fat, data, fat', data', cb, ch[1..], left - Min(left, cb));
    }
  }

  /** A chain of enough clusters gives every byte asked for. */
  lemma {:induction false} ReadLength(fat: seq<nat>, data: seq<seq<byte>>, cb: nat, ch: seq<nat>, left: nat)
    requires cb > 0 && |data| <= |fat| && InRange(fat, |data|) && IsChain(fat, |data|, ch) && NumClus(left, cb) <= |ch|
    requires forall i :: 2 <= i < |data| ==> |data[i]| == cb
    ensures |ReadFrom(fat, data, cb, ch[0], left)| == left
    decreases |ch|
  {
    var chunk := Min(left, cb);
    if left > chunk {
      assert NumClus(left - chunk, cb) >= 1;
      ChainTail(fat, |data|, ch);
      ReadLength(fat, data, cb, ch[1..], left - chunk);
    } else if left > 0 {
      assert ReadFrom(fat, data, cb, fat[ch[0]], 0) == [];
    }
  }

  /** Asking for less gives the beginning. */
  lemma {:induction false} ReadPrefix(fat: seq<nat>, data: seq<seq<byte>>, cb: nat, c: nat, m: nat, left: nat)
    requires cb > 0 && |data| <= |fat| && InRange(fat, |data|) && (InChain(c) ==> c < |data|) && m <= left
    requires forall i :: 2 <= i < |data| ==> |data[i]| == cb
    requires |ReadFrom(fat, data, cb, c, left)| == left
    ensures ReadFrom(fat, data, cb, c, m) == ReadFrom(fat, data, cb, c, left)[..m]
    decreases left
  {
    if m > 0 {
      var chunk := Min(left, cb);
      if m > cb {
        ReadPrefix(fat, data, cb, fat[c], m - cb, left - cb);
      } else {
        assert ReadFrom(fat, data, cb, fat[c], 0) == [];
        assert data[c][..m] == data[c][..chunk][..m];
      }
    }
  }

  /** The first `n` pieces of `src` are its first `at` bytes. */
  ghost predicate Cut(src: seq<byte>, cb: nat, at: nat, n: nat) {
    cb > 0 && at <= |src| && n <= |Chunks(src, cb)| && Chunks(src, cb)[n..] == Chunks(src[at..], cb)
  }

  lemma CutNone(src: seq<byte>, cb: nat)
    requires cb > 0
    ensures Cut(src, cb, 0, 0)
  {
    assert src[0..] == src;
  }

  lemma CutStep(src: seq<byte>, cb: nat, at: nat, n: nat)
    requires Cut(src, cb, at, n) && at < |src|
    ensures var m := Min(|src| - at, cb);
            n < |Chunks(src, cb)| && Chunks(src, cb)[n] == src[at..at+m] && Cut(src, cb, at + m, n + 1)
    ensures n < NumClus(|src|, cb)
  {
    hide Chunks, NumClus;
    var m, rest, all := Min(|src| - at, cb), src[at..], Chunks(src, cb);
    assert rest[..m] == src[at..at+m];
    DropTwice(src, at, m);
    ChunksHead(rest, cb);
    SliceHead(all, n, rest[..m], Chunks(rest[m..], cb));
  }

  lemma DropTwice(src: seq<byte>, at: nat, m: nat)
    requires at + m <= |src|
    ensures src[at..][m..] == src[at + m..]
  {
  }

  lemma SliceHead<T>(all: seq<T>, n: nat, head: T, tail: seq<T>)
    requires n <= |all| && all[n..] == [head] + tail
    ensures n < |all| && all[n] == head && all[n+1..] == tail
  {
    assert |all[n..]| > 0;
    assert all[n..][0] == head && all[n..][1..] == tail;
  }

  lemma ChunksHead(src: seq<byte>, cb: nat)
    requires cb > 0 && |src| > 0
    ensures var m := Min(|src|, cb); Chunks(src, cb) == [src[..m]] + Chunks(src[m..], cb)
  {
  }

  lemma CutAll(src: seq<byte>, cb: nat, n: nat)
    requires Cut(src, cb, |src|, n)
    ensures n == |Chunks(src, cb)| == NumClus(|src|, cb)
  {
    assert src[|src|..] == [];
  }

  // ---------------------------------------------------------------- space

  /** The clusters alloc_clus can hand out. */
  ghost function FreeSet(fat: seq<nat>, limit: nat): set<nat>
    requires limit <= |fat|
  {
    set c | 3 <= c < limit && fat[c] == 0
  }

  /** Taking a free cluster leaves one fewer. */
  lemma FreeSetTake(fat: seq<nat>, limit: nat, c: nat, val: nat)
    requires 3 <= c < limit <= |fat| && fat[c] == 0 && val != 0
    ensures FreeSet(fat[c := val], limit) == FreeSet(fat, limit) - {c}
    ensures |FreeSet(fat[c := val], limit)| == |FreeSet(fat, limit)| - 1
  {
    assert FreeSet(fat[c := val], limit) == FreeSet(fat, limit) - {c};
  }

  /** Relinking a cluster in use leaves as many. */
  lemma FreeSetRelink(fat: seq<nat>, limit: nat, c: nat, val: nat)
    requires c < limit <= |fat| && fat[c] != 0 && val != 0
    ensures FreeSet(fat[c := val], limit) == FreeSet(fat, limit)
  {
  }

  /** The unfinished chain of a write: linked so far, with the end mark on its last cluster. */
  ghost predicate Growing(fat0: seq<nat>, fat: seq<nat>, limit: nat, ch: seq<nat>) {
    && |fat| == |fat0| && 3 <= limit <= |fat| && limit <= BAD
    && (forall i :: 0 <= i < |ch| ==> 2 <= ch[i] < limit && fat0[ch[i]] == 0)
    && (forall i, j :: 0 <= i < j < |ch| ==> ch[i] != ch[j])
    && (forall i :: 0 <= i < |ch| - 1 ==> fat[ch[i]] == ch[i+1])
    && (ch != [] ==> fat[ch[|ch|-1]] == EOC_MARK)
    && (forall c :: 0 <= c < |fat| && c !in ch ==> fat[c] == fat0[c])
  }

  lemma GrowingNothing(fat0: seq<nat>, fat: seq<nat>, limit: nat)
    requires Growing(fat0, fat, limit, [])
    ensures fat == fat0
  {
  }

  lemma GrowingNone(fat: seq<nat>, limit: nat)
    requires 3 <= limit <= |fat| && limit <= BAD
    ensures Growing(fat, fat, limit, [])
  {
  }

  /** First and last cluster of an unfinished chain, both 0 when there is none. */
  ghost predicate Ends(ch: seq<nat>, first: nat, prev: nat) {
    && 0 !in ch
    && first == (if ch == [] then 0 else ch[0])
    && prev == (if ch == [] then 0 else ch[|ch|-1])
  }

  lemma EndsNone()
    ensures Ends([], 0, 0)
  {
  }

  lemma EndsStep(ch: seq<nat>, first: nat, prev: nat, c: nat)
    requires Ends(ch, first, prev) && c != 0
    ensures Ends(ch + [c], if first == 0 then c else first, c)
  {
  }

  /** A free cluster `c`, marked and linked behind the last of `ch`. */
  function Linked(fat: seq<nat>, ch: seq<nat>, c: nat): seq<nat>
    requires c < |fat| && (ch != [] ==> ch[|ch|-1] < |fat|)
  {
    if ch == [] then fat[c := EOC_MARK] else fat[c := EOC_MARK][ch[|ch|-1] := c]
  }

  lemma GrowingUsed(fat0: seq<nat>, fat: seq<nat>, limit: nat, ch: seq<nat>)
    requires Growing(fat0, fat, limit, ch)
    ensures forall i :: 0 <= i < |ch| ==> fat[ch[i]] != 0
  {
    forall i | 0 <= i < |ch| ensures fat[ch[i]] != 0 { if i < |ch| - 1 { assert fat[ch[i]] == ch[i+1]; } }
  }

  lemma GrowingStep(fat0: seq<nat>, fat: seq<nat>, limit: nat, ch: seq<nat>, c: nat)
    requires Growing(fat0, fat, limit, ch) && 2 <= c < limit && fat[c] == 0
    ensures c !in ch && (ch != [] ==> 2 <= ch[|ch|-1] < limit)
    ensures Growing(fat0, Linked(fat, ch, c), limit, ch + [c])
  {
    GrowingUsed(fat0, fat, limit, ch);
    var ch', fat' := ch + [c], Linked(fat, ch, c);
    assert forall i :: 0 <= i < |ch| ==> ch[i] != c;
    forall i | 0 <= i < |ch'| - 1 ensures fat'[ch'[i]] == ch'[i+1] {
      if i < |ch| - 1 { assert ch[i] != ch[|ch|-1] && fat[ch[i]] == ch[i+1]; }
    }
    forall x | 0 <= x < |fat| && x !in ch' ensures fat'[x] == fat0[x] {
      assert ch'[|ch|] == c && (x in ch ==> x in ch');
    }
  }

  lemma GrowingSpace(fat0: seq<nat>, fat: seq<nat>, limit: nat, ch: seq<nat>, c: nat)
    requires Growing(fat0, fat, limit, ch) && NoBad(fat, limit) && 3 <= c < limit && fat[c] == 0
    requires ch != [] ==> 2 <= ch[|ch|-1] < limit
    ensures NoBad(Linked(fat, ch, c), limit)
    ensures |FreeSet(Linked(fat, ch, c), limit)| == |FreeSet(fat, limit)| - 1
  {
    GrowingUsed(fat0, fat, limit, ch);
    FreeSetTake(fat, limit, c, EOC_MARK);
    if ch != [] { FreeSetRelink(fat[c := EOC_MARK], limit, ch[|ch|-1], c); }
  }

  /** The end mark is already on the last cluster. */
  lemma GrowingEnd(fat0: seq<nat>, fat: seq<nat>, limit: nat, ch: seq<nat>)
    requires Growing(fat0, fat, limit, ch) && ch != []
    ensures 2 <= ch[0] && 2 <= ch[|ch|-1] < limit <= |fat| && fat[ch[|ch|-1] := EOC_MARK] == fat
  {
  }

  lemma WrittenStores(data0: seq<seq<byte>>, data: seq<seq<byte>>, cb: nat, ch: seq<nat>, src: seq<byte>)
    requires cb > 0 && Written(data0, data, cb, ch, Chunks(src, cb))
    ensures |Chunks(src, cb)| == |ch| ==> Stores(data, cb, ch, src)
    ensures forall c :: 0 <= c < |data| && c !in ch ==> data[c] == data0[c]
  {
  }

  lemma GrowingIsChain(fat0: seq<nat>, fat: seq<nat>, limit: nat, ch: seq<nat>)
    requires Growing(fat0, fat, limit, ch) && ch != []
    ensures IsChain(fat, limit, ch)
  {
  }
}
