/**
 * The FAT12 floppy builder: packed 12-bit entries that share bytes with their neighbours, a root
 * directory of fixed size in front of the clusters, and mkdir and add_file over them
 * (tools/make_floppy.py:25-78, 81-319). The boot sectors are not part of this model.
 */
module Floppies {
  import opened Options
  import opened Bytes
  import opened Names
  import opened Chains
  import opened Dirs
  import opened Trees
  import opened Wellformed
  import opened Ops
  import opened Paths
  import opened Mending
  import opened LongNames
  import opened ImageNames
  import opened Runs
  import opened Blobs
  import Builds

  const TOTSEC: nat := 2880
  const FATSZ: nat := 9
  /** First sectors of the two tables, the root directory and the clusters. */
  const TABLE1: nat := 65
  const TABLE2: nat := 74
  const ROOT_SEC: nat := 83
  const DATA_SEC: nat := 97
  const CLUSTERS: nat := 2783
  const ROOT_SECS: nat := 14
  const EOC12: nat := 0xFFF
  const END12: nat := 0xFF8

  /**
   * The root directory is seen as a chain of 14 clusters behind the last real one, so that it is a
   * directory like the others; the builder calls it 0.
   */
  const TOP: nat := 2 + CLUSTERS
  const LIMIT: nat := TOP + ROOT_SECS
  const PER: nat := 16

  // ---------------------------------------------------------------- packed entries

  function High(a: int, b: int): int { a / 16 + b * 16 }
  function Low(a: int, b: int): int { a + b % 16 * 0x100 }

  /** _get_fat12: entries at 12 bits each, low nibbles first (FAT specification, section 4.1). */
  function Unpack(fat: seq<byte>, c: nat): (r: nat)
    requires c * 3 / 2 + 1 < |fat|
    ensures r < 0x1000
  {
    var off := c * 3 / 2;
    if c % 2 == 1 then High(fat[off], fat[off+1]) else Low(fat[off], fat[off+1])
  }

  /** The two bytes that hold entry `c`, once it is `val`. */
  function Packed(fat: seq<byte>, c: nat, val: nat): (r: seq<byte>)
    requires c * 3 / 2 + 1 < |fat|
    ensures |r| == |fat|
  {
    var v, off := val % 0x1000, c * 3 / 2;
    if c % 2 == 1 then fat[off := fat[off] % 16 + v % 16 * 16][off+1 := v / 16]
    else fat[off := v % 0x100][off+1 := fat[off+1] / 16 * 16 + v / 0x100]
  }

  /** Packing an entry changes that entry and no other. */
  lemma PackOne(fat: seq<byte>, c: nat, val: nat, k: nat)
    requires c * 3 / 2 + 1 < |fat| && k * 3 / 2 + 1 < |fat|
    ensures Unpack(Packed(fat, c, val), k) == if k == c then val % 0x1000 else Unpack(fat, k)
  {
    Halves(c);
    Halves(k);
    if k < c { PackAbove(fat, c, val, k); } else if k > c { PackBelow(fat, c, val, k); } else { PackHere(fat, c, val); }
  }

  lemma PackHere(fat: seq<byte>, c: nat, val: nat)
    requires c * 3 / 2 + 1 < |fat|
    ensures Unpack(Packed(fat, c, val), c) == val % 0x1000
  {
    hide High, Low;
    Nibbles(fat[c * 3 / 2], fat[c * 3 / 2 + 1], val % 0x1000);
  }

  /** Splitting twelve bits over two bytes, beside the four bits of a neighbour. */
  lemma Nibbles(a: byte, b: byte, v: nat)
    requires v < 0x1000
    ensures High(a % 16 + v % 16 * 16, v / 16) == v && (a % 16 + v % 16 * 16) % 16 == a % 16
    ensures Low(v % 0x100, b / 16 * 16 + v / 0x100) == v && (b / 16 * 16 + v / 0x100) / 16 == b / 16
  {
    assert v / 16 < 0x100 && v / 0x100 < 16 && a % 16 < 16;
    Beside(v % 16, a % 16);
    Beside(b / 16, v / 0x100);
  }

  /** Four bits below the others. */
  lemma Beside(high: nat, low: nat)
    requires low < 16
    ensures (low + high * 16) / 16 == high && (low + high * 16) % 16 == low
  {
  }

  /** An even entry sees only the low nibble of its second byte, an odd one only the high nibble of its first. */
  lemma LowSees(a: int, b: int, b': int)
    requires b' % 16 == b % 16
    ensures Low(a, b') == Low(a, b)
  {
  }

  lemma HighSees(a: int, a': int, b: int)
    requires a' / 16 == a / 16
    ensures High(a', b) == High(a, b)
  {
  }

  /** An entry before: at most its high nibble lies in the first byte of `c`. */
  lemma PackAbove(fat: seq<byte>, c: nat, val: nat, k: nat)
    requires c * 3 / 2 + 1 < |fat| && k < c
    ensures k * 3 / 2 + 1 < |fat| && Unpack(Packed(fat, c, val), k) == Unpack(fat, k)
  {
    hide High, Low;
    Halves(c);
    Halves(k);
    if k + 1 == c && c % 2 == 1 {
      Nibbles(fat[c * 3 / 2], 0, val % 0x1000);
      LowSees(fat[k * 3 / 2], fat[c * 3 / 2], fat[c * 3 / 2] % 16 + val % 0x1000 % 16 * 16);
    }
  }

  /** An entry behind: at most its low nibble lies in the last byte of `c`. */
  lemma PackBelow(fat: seq<byte>, c: nat, val: nat, k: nat)
    requires k * 3 / 2 + 1 < |fat| && k > c
    ensures c * 3 / 2 + 1 < |fat| && Unpack(Packed(fat, c, val), k) == Unpack(fat, k)
  {
    hide High, Low;
    Halves(c);
    Halves(k);
    if k == c + 1 && c % 2 == 0 {
      Nibbles(0, fat[k * 3 / 2], val % 0x1000);
      HighSees(fat[k * 3 / 2], fat[k * 3 / 2] / 16 * 16 + val % 0x1000 / 0x100, fat[k * 3 / 2 + 1]);
    }
  }

  lemma Halves(c: nat)
    ensures c * 3 / 2 == if c % 2 == 1 then 3 * (c / 2) + 1 else 3 * (c / 2)
  {
  }

  /** An entry as the wider tables have it. */
  function Widen(v: nat): (r: nat)
    ensures InChain(r) <==> 2 <= v < END12
    ensures v < END12 ==> r == v
  {
    if v < END12 then v else EOC_MARK
  }

  /** `fat` spells the entries of the clusters; those of the root are made up. */
  ghost predicate Spells12(fat: seq<byte>, wide: seq<nat>) {
    && |fat| == FATSZ * SECTOR && |wide| == LIMIT
    && (forall c: nat :: c < TOP ==> wide[c] == Widen(Unpack(fat, c)))
    && forall c: nat :: TOP <= c < LIMIT ==> wide[c] == RootLink(c)
  }

  function RootLink(c: nat): nat { if c + 1 < LIMIT then c + 1 else EOC_MARK }

  lemma SpellsPacked(fat: seq<byte>, wide: seq<nat>, c: nat, val: nat)
    requires Spells12(fat, wide) && c < TOP
    ensures Spells12(Packed(fat, c, val), wide[c := Widen(val % 0x1000)])
  {
    hide Unpack, Packed, Widen;
    forall k: nat | k < TOP
      ensures wide[c := Widen(val % 0x1000)][k] == Widen(Unpack(Packed(fat, c, val), k)) { PackOne(fat, c, val, k); }
  }

  function NoTable(): seq<nat> { seq(LIMIT, c => if c < TOP then 0 else RootLink(c)) }

  lemma SpellsNothing(fat: seq<byte>)
    requires |fat| == FATSZ * SECTOR && forall i :: 0 <= i < |fat| ==> fat[i] == 0
    ensures Spells12(fat, NoTable())
  {
    hide Unpack;
    forall c: nat | c < TOP ensures NoTable()[c] == Widen(Unpack(fat, c)) { ZeroEntry(fat, c); }
  }

  lemma ZeroEntry(fat: seq<byte>, c: nat)
    requires |fat| == FATSZ * SECTOR && c < TOP && forall i :: 0 <= i < |fat| ==> fat[i] == 0
    ensures c * 3 / 2 + 1 < |fat| && Unpack(fat, c) == 0
  {
    Halves(c);
  }

  // ---------------------------------------------------------------- where things lie

  /** Byte offset of cluster `c`, or of a piece of the root (make_floppy.py:153-168). */
  function Off(c: nat): (o: nat)
    requires 2 <= c < LIMIT
    ensures ROOT_SEC * SECTOR <= o && o + SECTOR <= TOTSEC * SECTOR
  {
    if c < TOP then (DATA_SEC + c - 2) * SECTOR else (ROOT_SEC + c - TOP) * SECTOR
  }

  lemma OffApart(c: nat, d: nat)
    requires 2 <= c < LIMIT && 2 <= d < LIMIT && c != d
    ensures Off(c) + SECTOR <= Off(d) || Off(d) + SECTOR <= Off(c)
  {
  }

  function ClusAt(img: seq<byte>, c: nat): (r: seq<byte>)
    requires |img| == TOTSEC * SECTOR && 2 <= c < LIMIT
    ensures |r| == SECTOR
  {
    img[Off(c)..Off(c) + SECTOR]
  }

  /** The image holds the clusters `data`. */
  ghost predicate SpelledImg(img: seq<byte>, data: seq<seq<byte>>) {
    |img| == TOTSEC * SECTOR && |data| == LIMIT && forall c: nat :: 2 <= c < LIMIT ==> ClusAt(img, c) == data[c]
  }

  /** Bytes put at the start of one cluster. */
  lemma ClusPut(img: seq<byte>, data: seq<seq<byte>>, c: nat, piece: seq<byte>)
    requires SpelledImg(img, data) && 2 <= c < LIMIT && |piece| <= SECTOR
    ensures |data[c]| == SECTOR && SpelledImg(Put(img, Off(c), piece), data[c := Put(data[c], 0, piece)])
  {
    hide Off;
    var b := Put(img, Off(c), piece);
    assert ClusAt(img, c) == data[c];
    forall d: nat | 2 <= d < LIMIT ensures ClusAt(b, d) == data[c := Put(data[c], 0, piece)][d] {
      assert ClusAt(img, d) == data[d];
      if d != c { OffApart(c, d); }
    }
  }

  /** Bytes put in front of the root and the clusters. */
  lemma HeadPut(img: seq<byte>, data: seq<seq<byte>>, at: nat, piece: seq<byte>)
    requires SpelledImg(img, data) && at + |piece| <= ROOT_SEC * SECTOR
    ensures SpelledImg(Put(img, at, piece), data)
  {
    hide Off;
    forall d: nat | 2 <= d < LIMIT
      ensures ClusAt(Put(img, at, piece), d) == data[d] { assert ClusAt(img, d) == data[d]; }
  }

  /** The root directory, all of it. */
  function RootBytes(img: seq<byte>): (r: seq<byte>)
    requires |img| == TOTSEC * SECTOR
    ensures |r| == ROOT_SECS * SECTOR
  {
    img[ROOT_SEC * SECTOR..ROOT_SEC * SECTOR + ROOT_SECS * SECTOR]
  }

  lemma RootPieces(img: seq<byte>, k: nat)
    requires |img| == TOTSEC * SECTOR && k < ROOT_SECS
    ensures k * SECTOR + SECTOR <= ROOT_SECS * SECTOR && ClusAt(img, TOP + k) == Piece(RootBytes(img), SECTOR, k)
  {
    var a, o := ROOT_SEC * SECTOR, k * SECTOR;
    assert Off(TOP + k) == a + o;
    SubSlice(img, a, a + ROOT_SECS * SECTOR, o, o + SECTOR);
  }

  /** The clusters once the root directory is `blob`. */
  function RootFilled(data: seq<seq<byte>>, blob: seq<byte>): (r: seq<seq<byte>>)
    requires |data| == LIMIT && |blob| == ROOT_SECS * SECTOR
    ensures |r| == LIMIT
  {
    seq(LIMIT, c requires 0 <= c < LIMIT => if c < TOP then data[c] else RootPiece(blob, c - TOP))
  }

  function RootPiece(blob: seq<byte>, k: nat): seq<byte>
    requires |blob| == ROOT_SECS * SECTOR && k < ROOT_SECS
  {
    Piece(blob, SECTOR, k)
  }

  lemma RootPut(img: seq<byte>, data: seq<seq<byte>>, blob: seq<byte>)
    requires SpelledImg(img, data) && |blob| == ROOT_SECS * SECTOR
    ensures SpelledImg(Put(img, ROOT_SEC * SECTOR, blob), RootFilled(data, blob))
  {
    forall d: nat | 2 <= d < LIMIT
      ensures ClusAt(Put(img, ROOT_SEC * SECTOR, blob), d) == RootFilled(data, blob)[d]
    {
      RootPutAt(img, data, blob, d);
    }
  }

  lemma RootPutAt(img: seq<byte>, data: seq<seq<byte>>, blob: seq<byte>, d: nat)
    requires SpelledImg(img, data) && |blob| == ROOT_SECS * SECTOR && 2 <= d < LIMIT
    ensures ClusAt(Put(img, ROOT_SEC * SECTOR, blob), d) == RootFilled(data, blob)[d]
  {
    hide Put, Piece;
    var b := Put(img, ROOT_SEC * SECTOR, blob);
    if d >= TOP {
      PutSlice(img, ROOT_SEC * SECTOR, blob, ROOT_SEC * SECTOR, ROOT_SEC * SECTOR + ROOT_SECS * SECTOR);
      PutAllOver(RootBytes(img), blob);
      var k: nat := d - TOP;
      RootPieces(b, k);
      assert RootBytes(b) == blob;
      assert ClusAt(b, TOP + k) == Piece(blob, SECTOR, k);
      assert RootFilled(data, blob)[d] == RootPiece(blob, k);
    } else {
      assert ClusAt(img, d) == data[d];
      PutSlice(img, ROOT_SEC * SECTOR, blob, Off(d), Off(d) + SECTOR);
    }
  }

  function RootChain(): (r: seq<nat>)
    ensures |r| == ROOT_SECS && forall i :: 0 <= i < |r| ==> r[i] == TOP + i
  {
    seq(ROOT_SECS, i => TOP + i)
  }

  /** Clusters are handed out in order: what is to come is free and blank. */
  ghost predicate Bump(wide: seq<nat>, data: seq<seq<byte>>, next: nat) {
    && 2 <= next <= TOP && |wide| == |data| == LIMIT
    && forall c: nat :: next <= c < TOP ==> wide[c] == 0 && data[c] == Zeros(SECTOR)
  }

  lemma BumpPut(wide: seq<nat>, data: seq<seq<byte>>, next: nat, c: nat, bytes: seq<byte>)
    requires Bump(wide, data, next) && c < LIMIT && (c < next || TOP <= c)
    ensures Bump(wide, data[c := bytes], next)
  {
  }

  lemma BumpSet(wide: seq<nat>, data: seq<seq<byte>>, next: nat, c: nat, val: nat)
    requires Bump(wide, data, next) && c < next
    ensures Bump(wide[c := val], data, next)
  {
  }

  lemma BumpTake(wide: seq<nat>, data: seq<seq<byte>>, next: nat, val: nat)
    requires Bump(wide, data, next) && next < TOP
    ensures wide[next] == 0 && data[next] == Zeros(SECTOR) && Bump(wide[next := val], data, next + 1)
  {
  }

  /** The builder's number of directory `d`. */
  function Number(d: nat): nat { if d == TOP then 0 else d }

  function BlankClusters(): (r: seq<seq<byte>>)
    ensures |r| == LIMIT
  {
    seq(LIMIT, c => if c < 2 then [] else Zeros(SECTOR))
  }

  lemma BlankSpells(img: seq<byte>)
    requires |img| == TOTSEC * SECTOR && forall i :: 0 <= i < |img| ==> img[i] == 0
    ensures SpelledImg(img, BlankClusters())
  {
    hide Off;
    forall d: nat | 2 <= d < LIMIT
      ensures ClusAt(img, d) == BlankClusters()[d] { assert ClusAt(img, d) == Zeros(SECTOR); }
  }

  lemma RootPlaces(L: Layout)
    requires TOP in L.chains && HeadOk(L, TOP) && L.chains[TOP] == RootChain()
    ensures forall c :: TOP <= c < LIMIT ==> c in L.places && L.places[c].head == TOP
  {
    forall c | TOP <= c < LIMIT ensures c in L.places && L.places[c].head == TOP { assert RootChain()[c - TOP] == c; }
  }

  lemma BlankBump()
    ensures Bump(NoTable(), BlankClusters(), 2)
  {
  }

  lemma BlankRoot(img: seq<byte>)
    requires |img| == TOTSEC * SECTOR && forall i :: 0 <= i < |img| ==> img[i] == 0
    ensures RootBytes(img) == Zeros(ROOT_SECS * SECTOR)
  {
  }

  /** The label comes first in the root and leaves the tables alone. */
  lemma LabelPut(img: seq<byte>, e: Entry)
    requires |img| == TOTSEC * SECTOR && RootBytes(img) == Zeros(ROOT_SECS * SECTOR)
    ensures var b := Put(img, Off(TOP), e);
            && RootBytes(b) == Put(Zeros(ROOT_SECS * SECTOR), 0, e)
            && TableAt(b, TABLE1) == TableAt(img, TABLE1) && TableAt(b, TABLE2) == TableAt(img, TABLE2)
  {
    hide Put;
    var at := ROOT_SEC * SECTOR;
    PutSlice(img, at, e, at, at + ROOT_SECS * SECTOR);
    PutSlice(img, at, e, TABLE1 * SECTOR, TABLE1 * SECTOR + FATSZ * SECTOR);
    PutSlice(img, at, e, TABLE2 * SECTOR, TABLE2 * SECTOR + FATSZ * SECTOR);
  }

  ghost function BlankLayout(): Layout {
    Layout(map[TOP := RootChain()], Placed(RootChain()), map[], map[TOP := 0])
  }

  /** Only the root has a chain. */
  lemma BlankChains(wide: seq<nat>)
    requires |wide| == LIMIT && (forall c: nat :: 2 <= c < TOP ==> wide[c] == 0)
    requires forall c: nat :: TOP <= c < LIMIT ==> wide[c] == RootLink(c)
    ensures ChainsOk(wide, LIMIT, BlankLayout())
  {
    hide RootChain, HeadOk, PlaceOk, RootLink, BlankLayout;
    BlankHead();
    forall c | c in BlankLayout().places ensures PlaceOk(wide, LIMIT, BlankLayout(), c) { BlankPlace(wide, c); }
    forall c | 2 <= c < LIMIT ensures wide[c] != 0 <==> c in BlankLayout().places { BlankUsed(wide, c); }
  }

  lemma BlankHead()
    ensures BlankLayout().chains.Keys == {TOP} && HeadOk(BlankLayout(), TOP)
    ensures forall c :: c in BlankLayout().places <==> c in RootChain()
  {
  }

  lemma BlankUsed(wide: seq<nat>, c: nat)
    requires |wide| == LIMIT && 2 <= c < LIMIT && (c < TOP ==> wide[c] == 0) && (TOP <= c ==> wide[c] == RootLink(c))
    ensures wide[c] != 0 <==> c in BlankLayout().places
  {
    hide RootChain;
    if c >= TOP { assert RootChain()[c - TOP] == c; }
  }

  lemma BlankPlace(wide: seq<nat>, c: nat)
    requires |wide| == LIMIT && c in RootChain()
    requires forall x: nat :: TOP <= x < LIMIT ==> wide[x] == RootLink(x)
    ensures c in BlankLayout().places && PlaceOk(wide, LIMIT, BlankLayout(), c) && TOP <= c < LIMIT
  {
    hide RootChain;
    var i :| 0 <= i < ROOT_SECS && RootChain()[i] == c;
    assert BlankLayout().places[RootChain()[i]] == Place(TOP, i);
  }

  /** The root region, seen as the chain of the root. */
  lemma RootHolding(img: seq<byte>, data: seq<seq<byte>>)
    requires SpelledImg(img, data)
    ensures Holding(data, RootChain(), PER, RootBytes(img))
  {
    hide Holding, Piece, ClusAt;
    var ch, blob := RootChain(), RootBytes(img);
    assert Sized(data, ch, PER) by { RootSized(img, data); }
    forall k | 0 <= k < |ch|
      ensures k * (PER * 32) + PER * 32 <= |blob| && data[ch[k]] == blob[k * (PER * 32)..k * (PER * 32) + PER * 32] {
      RootPieces(img, k);
      PieceIs(blob, SECTOR, k);
      assert ClusAt(img, TOP + k) == data[TOP + k];
    }
    HoldingPieces(data, ch, PER, blob, |ch|);
    assert ch[..|ch|] == ch && blob[..|ch| * (PER * 32)] == blob;
  }

  lemma RootSized(img: seq<byte>, data: seq<seq<byte>>)
    requires SpelledImg(img, data)
    ensures Sized(data, RootChain(), PER)
  {
    hide ClusAt;
    var ch := RootChain();
    forall k | 0 <= k < |ch|
      ensures ch[k] < |data| && |data[ch[k]]| == PER * 32 { assert ClusAt(img, TOP + k) == data[TOP + k]; }
  }

  lemma BlankTree(data: seq<seq<byte>>)
    requires DataShape(data, LIMIT, PER) && Fits(data, BlankLayout(), PER)
    requires FreshRoot(SlotsAt(data, BlankLayout(), PER, TOP)) && |SlotsAt(data, BlankLayout(), PER, TOP)| <= MAX_ITEMS
    ensures TreeOk(DirItems(data, BlankLayout(), PER), BlankLayout(), TOP)
  {
    hide DirSlots, Dotted, NumClus, EntClus, EntSize, RootChain;
    var D, T := DirItems(data, BlankLayout(), PER), BlankLayout();
    FreshItems(SlotsAt(data, T, PER, TOP), PerBytes(PER));
    assert D[TOP] == ItemsOf(SlotsAt(data, T, PER, TOP), PerBytes(PER));
    assert forall d: nat, i: nat :: !Owned(D, TOP, d, i);
  }

  /** What writing the root region does to its chain. */
  lemma RootIsFilled(data: seq<seq<byte>>, blob: seq<byte>)
    requires |data| == LIMIT && |blob| == ROOT_SECS * SECTOR
    ensures Filled(data, RootFilled(data, blob), RootChain(), SECTOR, blob, ROOT_SECS)
  {
    hide Piece;
    var ch := RootChain();
    forall k | 0 <= k < |ch|
      ensures ch[k] < LIMIT && k * SECTOR + SECTOR <= |blob| && RootFilled(data, blob)[ch[k]] == Piece(blob, SECTOR, k)
    {
      PieceFits(ROOT_SECS, SECTOR, k);
      assert RootFilled(data, blob)[ch[k]] == RootPiece(blob, k);
    }
    forall c | TOP <= c < LIMIT ensures c in ch[..ROOT_SECS] { assert ch[..ROOT_SECS][c - TOP] == c; }
  }

  /** A directory to put the entry in, clusters for its bytes, and room for its records. */
  ghost predicate CanHold(v: Vol, next: nat, parts: seq<Name>, name: Name, need: nat) {
    && Fine(v, LIMIT, PER)
    && var d := Led(v, TOP, PER, parts);
       && d.Some? && d.value in v.L.depth && next + need <= TOP && Numbered(name)
       && HasRun(SlotsAt(v.data, v.L, PER, d.value), PER, 0, RunLength(name))
  }

  /** What mkdir asks of the directory its path leads to. */
  lemma MkdirAsks(v: Vol, next: nat, parts: seq<Name>, name: Name)
    requires Fine(v, LIMIT, PER)
    ensures var d := Led(v, TOP, PER, parts);
            if d.Some? && d.value in v.L.depth then
              && (Occupied(v, TOP, PER, parts, name) <==> Listed(SlotsAt(v.data, v.L, PER, d.value), ShortName(name)))
              && (CanHold(v, next, parts, name, 1) <==>
                  next + 1 <= TOP && Numbered(name)
                    && HasRun(SlotsAt(v.data, v.L, PER, d.value), PER, 0, RunLength(name)))
            else !Occupied(v, TOP, PER, parts, name) && !CanHold(v, next, parts, name, 1)
  {
    hide ChainsOk, DataShape, DirSlots, Led, ShortName, Listed, Numbered, HasRun, RunLength;
  }

  /** When a call succeeds. */
  ghost predicate Can(v: Vol, next: nat, op: Builds.Op) {
    match op
    case AddFile(parts, name, bytes) => CanHold(v, next, parts, name, NumClus(|bytes|, SECTOR))
    case Mkdir(parts, name) => Occupied(v, TOP, PER, parts, name) || CanHold(v, next, parts, name, 1)
  }

  function TableAt(img: seq<byte>, sec: nat): (r: seq<byte>)
    requires |img| == TOTSEC * SECTOR && sec + FATSZ <= TOTSEC
  {
    img[sec * SECTOR..sec * SECTOR + FATSZ * SECTOR]
  }

  lemma BothTables(img: seq<byte>, table: seq<byte>)
    requires |img| == TOTSEC * SECTOR && |table| == FATSZ * SECTOR
    ensures var b := Put(Put(img, TABLE1 * SECTOR, table), TABLE2 * SECTOR, table);
            TableAt(b, TABLE1) == table == TableAt(b, TABLE2) && RootBytes(b) == RootBytes(img)
  {
    hide Put;
    var one, two, n := TABLE1 * SECTOR, TABLE2 * SECTOR, FATSZ * SECTOR;
    var a := Put(img, one, table);
    PutSlice(img, one, table, one, one + n);
    PutSlice(a, two, table, one, one + n);
    PutSlice(a, two, table, two, two + n);
    PutAllOver(img[one..one + n], table);
    PutAllOver(a[two..two + n], table);
    PutSlice(img, one, table, ROOT_SEC * SECTOR, ROOT_SEC * SECTOR + ROOT_SECS * SECTOR);
    PutSlice(a, two, table, ROOT_SEC * SECTOR, ROOT_SEC * SECTOR + ROOT_SECS * SECTOR);
  }

  /** One hop down a chain of clusters in use. */
  ghost predicate HopOk(wide: seq<nat>, ch: seq<nat>, i: nat, next: nat)
    requires i < |ch|
  {
    && 2 <= ch[i] < next && ch[i] < TOP && ch[i] < |wide| && (forall j :: 0 <= j < i ==> ch[j] != ch[i])
    && if i + 1 < |ch| then wide[ch[i]] == ch[i+1] && 2 <= ch[i+1] < TOP else wide[ch[i]] >= EOC
  }

  /** A walk down a chain stands before its cluster number `i`. */
  predicate Along(ch: seq<nat>, i: nat, clus: nat) {
    i <= |ch| && if i < |ch| then clus == ch[i] && 2 <= clus < END12 else clus >= END12
  }

  lemma AlongHop(wide: seq<nat>, ch: seq<nat>, i: nat, clus: nat, next: nat)
    requires Along(ch, i, clus) && 2 <= clus < END12 && i < |ch| && HopOk(wide, ch, i, next)
    ensures clus == ch[i] && 2 <= clus < next && clus < TOP && clus < |wide| && clus !in ch[..i]
    ensures forall j :: 0 <= j < i ==> ch[j] != ch[i]
  {
  }

  lemma AlongStarts(ch: seq<nat>, first: nat)
    requires ch != [] && ch[0] == first && 2 <= first < TOP
    ensures Along(ch, 0, first)
  {
  }

  lemma AlongGoes(ch: seq<nat>, i: nat, clus: nat)
    requires Along(ch, i, clus) && 2 <= clus < END12
    ensures i < |ch|
  {
  }

  lemma AlongEnds(ch: seq<nat>, i: nat, clus: nat)
    requires Along(ch, i, clus) && !(2 <= clus < END12)
    ensures i == |ch|
  {
  }

  /** The clusters a walk has seen. */
  ghost predicate Listing(seen: set<nat>, ch: seq<nat>, i: nat) { i <= |ch| && forall k :: k in seen <==> k in ch[..i] }

  lemma ListingNone(ch: seq<nat>)
    ensures Listing({}, ch, 0)
  {
  }

  lemma ListingStep(seen: set<nat>, ch: seq<nat>, i: nat, clus: nat)
    requires Listing(seen, ch, i) && i < |ch| && clus == ch[i] && clus !in ch[..i]
    ensures clus !in seen && Listing(seen + {clus}, ch, i + 1)
  {
    assert ch[..i+1] == ch[..i] + [ch[i]];
  }

  lemma AlongNext(wide: seq<nat>, ch: seq<nat>, i: nat, next: nat, val: nat)
    requires i < |ch| && HopOk(wide, ch, i, next)
    requires (InChain(wide[ch[i]]) ==> val == wide[ch[i]]) && (wide[ch[i]] >= EOC ==> val >= END12)
    ensures Along(ch, i + 1, val)
  {
  }

  lemma {:induction false} NumClusBound(size: nat, cb: nat)
    requires cb > 0
    ensures size <= NumClus(size, cb) * cb
    decreases size
  {
    if size > 0 {
      NumClusBound(size - Min(size, cb), cb);
      assert NumClus(size, cb) * cb == NumClus(size - Min(size, cb), cb) * cb + cb;
    }
  }

  /** Sizes that fit the floppy fit their field. */
  lemma SizeBound(size: nat, next: nat)
    requires next + NumClus(size, SECTOR) <= TOP
    ensures size < 0x1_0000_0000
  {
    NumClusBound(size, SECTOR);
  }

  /** "AOSBOOT" (make_floppy.py:46, 157-163). */
  function LabelEntry(): Entry { [65, 79, 83, 66, 79, 79, 84, 32, 32, 32, 32, ATTR_VOL] + Zeros(20) }

  class Floppy {
    const img: array<byte>
    const fat: array<byte>
    var nextClus: nat
    // The plain table and clusters the bytes spell, and how they hang together.
    ghost var wide: seq<nat>
    ghost var data: seq<seq<byte>>
    ghost var L: Layout

    ghost predicate Good()
      reads this`nextClus, this`wide, this`data, img, fat
    {
      img != fat && Spells12(fat[..], wide) && SpelledImg(img[..], data) && Bump(wide, data, nextClus)
    }

    ghost function State(): Vol
      reads this`wide, this`data, this`L
    {
      Vol(wide, data, L)
    }

    /**
     * A blank image: the first two table entries, both tables, and a root with its label
     * (make_floppy.py:84-92, 145-163).
     */
    constructor ()
      ensures Valid() && Mirrored() && nextClus == 2 && L == BlankLayout() && fresh(img) && fresh(fat)
      ensures FreshRoot(Tree()[TOP]) && Tree().Keys == {TOP}
    {
      img := new byte[TOTSEC * SECTOR](_ => 0);
      fat := new byte[FATSZ * SECTOR](_ => 0);
      nextClus := 2;
      wide, data, L := NoTable(), BlankClusters(), BlankLayout();
      new;
      Begin();
    }

    method Begin()
      requires img != fat && img.Length == TOTSEC * SECTOR && fat.Length == FATSZ * SECTOR && nextClus == 2
      requires (forall i :: 0 <= i < img.Length ==> img[i] == 0) && (forall i :: 0 <= i < fat.Length ==> fat[i] == 0)
      requires wide == NoTable() && data == BlankClusters() && L == BlankLayout()
      modifies img, fat, this`wide, this`data
      ensures Valid() && Mirrored()
      ensures TOP in Tree() && FreshRoot(Tree()[TOP]) && Tree().Keys == {TOP}
    {
      hide Spells12, SpelledImg, Bump, FreshRoot, TableAt, RootBytes, Put, Widen, NoTable, BlankClusters, LabelEntry;
      SpellsNothing(fat[..]);
      BlankSpells(img[..]);
      BlankBump();
      BumpSet(wide, data, 2, 0, Widen(0xFF8));
      SetFat12(0, 0xFF8);
      BumpSet(wide, data, 2, 1, Widen(EOC12));
      SetFat12(1, EOC12);
      BlankRoot(img[..]);
      WriteFats();
      ghost var was := img[..];
      Write(TOP, LabelEntry());
      LabelPut(was, LabelEntry());
      BeginValid();
    }

    /** What the constructor leaves is well formed and empty. */
    lemma BeginValid()
      requires Good() && wide == NoTable()[0 := Widen(0xFF8)][1 := Widen(EOC12)] && L == BlankLayout()
      requires RootBytes(img[..]) == Put(Zeros(ROOT_SECS * SECTOR), 0, LabelEntry())
      ensures Valid() && TOP in Tree() && FreshRoot(Tree()[TOP]) && Tree().Keys == {TOP}
    {
      hide Spells12, SpelledImg, Bump, FreshRoot, Neat, Shuns, SlotsOf, RootBytes, Put, RootLink, Widen, ChainsOk,
           TreeOk, DirSlots, Zeros;
      Sizes();
      BlankChains(wide);
      RootSized(img[..], data);
      RootHolding(img[..], data);
      LabelRoot(ROOT_SECS * SECTOR, LabelEntry());
      BlankTree(data);
    }

    lemma Sizes()
      requires Good()
      ensures img != fat && img.Length == TOTSEC * SECTOR && fat.Length == FATSZ * SECTOR && 2 <= nextClus <= TOP
      ensures |wide| == |data| == LIMIT && DataShape(data, LIMIT, PER)
    {
      hide Unpack, Widen, ClusAt;
      forall c: nat | 2 <= c < LIMIT ensures |data[c]| == SECTOR { assert ClusAt(img[..], c) == data[c]; }
    }

    /** _set_fat12 (make_floppy.py:61-70). */
    method SetFat12(c: nat, val: nat)
      requires Spells12(fat[..], wide) && c < TOP
      modifies fat, this`wide
      ensures Spells12(fat[..], wide) && |old(wide)| == LIMIT && wide == old(wide)[c := Widen(val % 0x1000)]
    {
      hide Spells12, Widen, Unpack;
      assert |wide| == LIMIT && fat.Length == FATSZ * SECTOR by { SpellsSize(fat[..], wide); }
      SpellsPacked(fat[..], wide, c, val);
      var v, off := val % 0x1000, c * 3 / 2;
      ghost var was := fat[..];
      if c % 2 == 1 {
        fat[off] := fat[off] % 16 + v % 16 * 16;
        fat[off+1] := v / 16;
      } else {
        fat[off] := v % 0x100;
        fat[off+1] := fat[off+1] / 16 * 16 + v / 0x100;
      }
      assert fat[..] == Packed(was, c, val);
      wide := wide[c := Widen(v)];
    }

    static lemma SpellsSize(fat: seq<byte>, wide: seq<nat>)
      requires Spells12(fat, wide)
      ensures |fat| == FATSZ * SECTOR && |wide| == LIMIT
    {
    }

    /** _get_fat12 (make_floppy.py:73-78). */
    method GetFat12(c: nat) returns (val: nat)
      requires Spells12(fat[..], wide) && c < TOP
      ensures c < |wide| && wide[c] == Widen(val) && val < 0x1000
    {
      hide Widen, Spells12, High, Low;
      SpellsSize(fat[..], wide);
      SpellsEntry(fat[..], wide, c);
      var off := c * 3 / 2;
      var a, b := fat[off], fat[off+1];
      val := if c % 2 == 1 then High(a, b) else Low(a, b);
    }

    static lemma SpellsEntry(fat: seq<byte>, wide: seq<nat>, c: nat)
      requires Spells12(fat, wide) && c < TOP
      ensures c * 3 / 2 + 1 < |fat| && c < |wide| && wide[c] == Widen(Unpack(fat, c))
    {
      hide Unpack, Widen;
    }

    /** Copy bytes to the start of a cluster in use. */
    method Write(c: nat, piece: seq<byte>)
      requires Good() && 2 <= c < LIMIT && (c < nextClus || TOP <= c) && |piece| <= SECTOR
      modifies img, this`data
      ensures Good() && |old(data)| == LIMIT && |old(data)[c]| == SECTOR
          && data == old(data)[c := Put(old(data)[c], 0, piece)]
      ensures img[..] == Put(old(img[..]), Off(c), piece)
    {
      hide Spells12, SpelledImg, Bump, Put;
      Sizes();
      ClusPut(img[..], data, c, piece);
      BumpPut(wide, data, nextClus, c, Put(data[c], 0, piece));
      Paste(Off(c), piece);
      data := data[c := Put(data[c], 0, piece)];
    }

    method Paste(at: nat, piece: seq<byte>)
      requires at + |piece| <= img.Length
      modifies img
      ensures img[..] == Put(old(img[..]), at, piece)
    {
      forall i | 0 <= i < |piece| { img[at + i] := piece[i]; }
    }

    /** A whole cluster. */
    method PutAll(c: nat, piece: seq<byte>)
      requires Good() && 2 <= c < LIMIT && (c < nextClus || TOP <= c) && |piece| == SECTOR
      modifies img, this`data
      ensures Good() && |old(data)| == LIMIT && data == old(data)[c := piece]
    {
      hide Good;
      ghost var was := data;
      Write(c, piece);
      PutAllOver(was[c], piece);
    }

    /** The bytes of cluster `c`. */
    method Get(c: nat) returns (bytes: seq<byte>)
      requires Good() && 2 <= c < LIMIT
      ensures c < |data| && bytes == data[c] && |bytes| == SECTOR
    {
      hide Spells12, Bump, Off;
      assert ClusAt(img[..], c) == data[c];
      bytes := img[Off(c)..Off(c) + SECTOR];
      assert bytes == img[..][Off(c)..Off(c) + SECTOR];
    }

    /** _alloc_clus: the next cluster, marked; 0 for "floppy full" (make_floppy.py:170-177). */
    method AllocClus() returns (c: nat)
      requires Good()
      modifies this`nextClus, this`wide, fat
      ensures Good() && |old(wide)| == |data| == LIMIT && data == old(data)
      ensures if old(nextClus) < TOP then 2 <= c == old(nextClus) && nextClus == c + 1
                && wide == old(wide)[c := EOC_MARK] && old(wide)[c] == 0 && data[c] == Zeros(SECTOR)
              else c == 0 && nextClus == old(nextClus) && wide == old(wide)
    {
      hide Spells12, SpelledImg, Bump;
      Sizes();
      c := nextClus;
      if c >= TOP {
        return 0;
      }
      BumpTake(wide, data, c, EOC_MARK);
      SetFat12(c, EOC12);
      nextClus := c + 1;
    }

    /** Link or end a cluster in use. */
    method Link(c: nat, val: nat)
      requires Good() && 2 <= c < nextClus && val < 0x1000
      modifies this`wide, fat
      ensures Good() && |old(wide)| == LIMIT && wide == old(wide)[c := Widen(val)]
    {
      hide Spells12, SpelledImg, Bump, Widen;
      Sizes();
      BumpSet(wide, data, nextClus, c, Widen(val));
      SetFat12(c, val);
    }

    // -------------------------------------------------------------- the tables

    /** Both tables of the image are the one in memory. */
    ghost predicate Mirrored()
      reads img, fat
    {
      img.Length == TOTSEC * SECTOR && fat.Length == FATSZ * SECTOR
        && TableAt(img[..], TABLE1) == fat[..] == TableAt(img[..], TABLE2)
    }

    /** Bytes in front of the root directory. */
    method WriteHead(at: nat, piece: seq<byte>)
      requires Good() && at + |piece| <= ROOT_SEC * SECTOR
      modifies img
      ensures Good() && img[..] == Put(old(img[..]), at, piece)
    {
      hide Spells12, SpelledImg, Bump, Put;
      Sizes();
      HeadPut(img[..], data, at, piece);
      Paste(at, piece);
    }

    /** _write_fats (make_floppy.py:145-149). */
    method WriteFats()
      requires Good()
      modifies img
      ensures Good() && Mirrored() && |old(img[..])| == TOTSEC * SECTOR && RootBytes(img[..]) == RootBytes(old(img[..]))
    {
      hide Good, Put, RootBytes;
      Sizes();
      ghost var was := img[..];
      var table := fat[..];
      WriteHead(TABLE1 * SECTOR, table);
      WriteHead(TABLE2 * SECTOR, table);
      BothTables(was, table);
    }

    /** save, as far as it touches the image (make_floppy.py:321-324). */
    method Save() returns (bytes: seq<byte>)
      requires Valid()
      modifies img
      ensures Valid() && State() == old(State()) && Mirrored() && bytes == img[..]
    {
      hide Good, TreeOk, ChainsOk, NeatTree, DirItems;
      WriteFats();
      bytes := img[..];
    }

    // -------------------------------------------------------------- chains

    /** The bytes are sound and the table is made of the chains of `L`. */
    ghost predicate Hung()
      reads this`nextClus, this`wide, this`data, this`L, img, fat
    {
      Good() && Fine(State(), LIMIT, PER) && TOP in L.chains && L.chains[TOP] == RootChain()
    }

    lemma HungIs()
      requires Hung()
      ensures Good() && Fine(State(), LIMIT, PER) && |wide| == |data| == LIMIT && PerOk(PER)
      ensures ChainsOk(wide, LIMIT, L) && DataShape(data, LIMIT, PER) && Fits(data, L, PER)
    {
      hide Good, ChainsOk, Fits;
      Sizes();
    }

    /** No chain but the root's enters the root region. */
    lemma BelowTop(h: nat, i: nat)
      requires Hung() && h in L.chains && h != TOP && i < |L.chains[h]|
      ensures L.chains[h][i] < TOP
    {
      hide Good;
      RootPlaces(L);
      assert HeadOk(L, h);
      assert PlaceOk(wide, LIMIT, L, L.chains[h][i]);
    }

    /** Where a walk down the chain of `h` stands after `i` hops, and where it goes next. */
    lemma Hop(h: nat, i: nat)
      requires Hung() && h in L.chains && h != TOP && i < |L.chains[h]|
      ensures var ch := L.chains[h];
        && 2 <= ch[i] < nextClus && ch[i] < TOP && ch[i] < |data| == |wide| && ch[0] == h && Sized(data, ch, PER)
        && (forall j :: 0 <= j < i ==> ch[j] != ch[i])
        && if i + 1 < |ch| then wide[ch[i]] == ch[i+1] && 2 <= ch[i+1] < TOP else wide[ch[i]] >= EOC
    {
      hide Spells12, SpelledImg, ChainsOk;
      HungIs();
      ChainsAreChains(wide, LIMIT, L, h);
      HeadIs(wide, LIMIT, L, h);
      BelowTop(h, i);
      if i + 1 < |L.chains[h]| { BelowTop(h, i + 1); }
      FitsSized(data, L, PER, h);
      assert wide[L.chains[h][i]] != 0;
    }

    /** _dir_blob below the root (make_floppy.py:195-204). */
    method ReadChain(first: nat) returns (blob: seq<byte>)
      requires Hung() && first in L.chains && first != TOP
      ensures Holding(data, L.chains[first], PER, blob)
    {
      hide Hung, Holding, Good, Sized, Along, HopOk, InChain, Listing, ChainsOk, DataShape, Fits;
      ghost var ch: seq<nat>, i: nat, next: nat := L.chains[first], 0, nextClus;
      HungIs();
      ChainStarts(first);
      AlongStarts(ch, first);
      ChainInside(first);
      FitsSized(data, L, PER, first);
      HoldingNone(data, PER);
      blob := [];
      var clus: nat, seen: set<nat> := first, {};
      ListingNone(ch);
      while 2 <= clus < END12
        invariant i <= |ch| && Along(ch, i, clus) && Holding(data, ch[..i], PER, blob) && Listing(seen, ch, i)
        decreases |ch| - i
      {
        AlongGoes(ch, i, clus);
        AlongHop(wide, ch, i, clus, next);
        ListingStep(seen, ch, i, clus);
        if clus in seen {
          break;
        }
        seen := seen + {clus};
        var bytes := Get(clus);
        SizedPrefix(data, ch, PER, i + 1);
        assert ch[..i] + [clus] == ch[..i+1];
        HoldingMore(data, ch[..i], PER, blob, clus);
        blob := blob + bytes;
        clus := Next(clus);
        AlongNext(wide, ch, i, next, clus);
        i := i + 1;
      }
      AlongEnds(ch, i, clus);
      assert ch[..|ch|] == ch;
    }

    /** The entry of a cluster, and what it is in the wide table. */
    method Next(c: nat) returns (val: nat)
      requires Good() && c < TOP
      ensures c < |wide| && (InChain(wide[c]) ==> val == wide[c]) && (wide[c] >= EOC ==> val >= END12)
    {
      hide SpelledImg, Bump, Spells12;
      val := GetFat12(c);
    }

    lemma ChainStarts(first: nat)
      requires Hung() && first in L.chains && first != TOP
      ensures |L.chains[first]| > 0 && L.chains[first][0] == first && 2 <= first < TOP
    {
      hide Good, ChainsOk, Fits;
      HungIs();
      HeadIs(wide, LIMIT, L, first);
      Hop(first, 0);
    }

    /** _root_blob and _dir_blob: a directory by the builder's number (make_floppy.py:179-204). */
    method ReadDir(clus: nat, ghost d: nat) returns (blob: seq<byte>)
      requires Hung() && d in L.chains && clus == Number(d)
      ensures Holding(data, L.chains[d], PER, blob)
    {
      hide Hung, Holding, Good, RootBytes;
      HungIs();
      Sizes();
      if clus == 0 {
        assert d == TOP && L.chains[d] == RootChain() by { RootIsThere12(); ZeroIsTop(d); }
        blob := img[ROOT_SEC * SECTOR..ROOT_SEC * SECTOR + ROOT_SECS * SECTOR];
        assert blob == RootBytes(img[..]) by { RootBytesIs(img[..], blob); }
        assert SpelledImg(img[..], data) by { ImgSpelled(); }
        RootHolding(img[..], data);
      } else {
        blob := ReadChain(clus);
      }
    }

    static lemma RootBytesIs(img: seq<byte>, blob: seq<byte>)
      requires |img| == TOTSEC * SECTOR && blob == img[ROOT_SEC * SECTOR..ROOT_SEC * SECTOR + ROOT_SECS * SECTOR]
      ensures blob == RootBytes(img)
    {
    }

    lemma ImgSpelled()
      requires Good()
      ensures SpelledImg(img[..], data)
    {
    }

    lemma RootIsThere12()
      requires Hung()
      ensures TOP in L.chains && L.chains[TOP] == RootChain()
    {
    }

    lemma ZeroIsTop(d: nat)
      requires Hung() && d in L.chains && Number(d) == 0
      ensures d == TOP
    {
      hide Good;
      HeadIs(wide, LIMIT, L, d);
      assert PlaceOk(wide, LIMIT, L, d);
    }

    /** _write_dir below the root, on bytes that fill the chain (make_floppy.py:211-223). */
    method WriteChain(first: nat, blob: seq<byte>)
      requires Hung() && first in L.chains && first != TOP && |blob| == |L.chains[first]| * SECTOR
      modifies img, this`data
      ensures Good() && Filled(old(data), data, L.chains[first], SECTOR, blob, |L.chains[first]|)
    {
      hide Hung, Good, Filled, Sized, Piece, Along, HopOk, InChain, ChainsOk, DataShape, Fits;
      ghost var ch: seq<nat>, i: nat := L.chains[first], 0;
      ghost var was := data;
      HungIs();
      ChainStarts(first);
      AlongStarts(ch, first);
      ChainInside(first);
      StoredNone(data, ch, SECTOR, blob);
      var clus: nat, pos: nat := first, 0;
      while 2 <= clus < END12 && pos < |blob|
        invariant i <= |ch| && pos == i * SECTOR && Good() && Filled(was, data, ch, SECTOR, blob, i)
            && Along(ch, i, clus)
        decreases |ch| - i
      {
        AlongGoes(ch, i, clus);
        AlongHop(wide, ch, i, clus, nextClus);
        StoredMore(was, data, ch, SECTOR, blob, i);
        PieceIs(blob, SECTOR, i);
        PutAll(clus, blob[pos..pos + SECTOR]);
        pos := pos + SECTOR;
        clus := Next(clus);
        AlongNext(wide, ch, i, nextClus, clus);
        i := i + 1;
      }
      if 2 <= clus < END12 { AlongGoes(ch, i, clus); } else { AlongEnds(ch, i, clus); }
    }

    /** The hops down a chain, all at once. */
    lemma ChainInside(first: nat)
      requires Hung() && first in L.chains && first != TOP
      ensures forall i :: 0 <= i < |L.chains[first]| ==>
          HopOk(wide, L.chains[first], i, nextClus) && L.chains[first][i] < |data|
    {
      hide Hung, Good, Sized;
      forall i | 0 <= i < |L.chains[first]|
        ensures HopOk(wide, L.chains[first], i, nextClus) && L.chains[first][i] < |data| { Hop(first, i); }
    }

    /** _write_root and _write_dir (make_floppy.py:184-223). */
    method WriteDir(clus: nat, blob: seq<byte>, ghost d: nat)
      requires Hung() && d in L.chains && clus == Number(d) && |blob| == |L.chains[d]| * SECTOR
      modifies img, this`data
      ensures Good() && Filled(old(data), data, L.chains[d], SECTOR, blob, |L.chains[d]|)
    {
      hide Hung, Good, Filled, RootFilled;
      HungIs();
      Sizes();
      if clus == 0 {
        assert d == TOP && L.chains[d] == RootChain() by { RootIsThere12(); ZeroIsTop(d); }
        RootIsFilled(data, blob);
        WriteRoot(blob);
      } else {
        WriteChain(clus, blob);
      }
    }

    method WriteRoot(blob: seq<byte>)
      requires Good() && |blob| == ROOT_SECS * SECTOR
      modifies img, this`data
      ensures Good() && |old(data)| == LIMIT && data == RootFilled(old(data), blob)
    {
      hide Spells12, SpelledImg, Put;
      Sizes();
      RootPut(img[..], data, blob);
      Paste(ROOT_SEC * SECTOR, blob);
      data := RootFilled(data, blob);
    }

    // -------------------------------------------------------------- file contents

    /** One turn of the loop of add_file: a cluster linked behind `prev` and filled (make_floppy.py:302-311). */
    method AppendPiece(ghost first: nat, prev: nat, piece: seq<byte>, ghost wide0: seq<nat>, ghost ch: seq<nat>)
      returns (c: nat)
      requires Good() && Growing(wide0, wide, LIMIT, ch) && Ends(ch, first, prev) && |piece| <= SECTOR
          && prev < nextClus
      modifies img, fat, this`nextClus, this`wide, this`data
      ensures Good() && |wide| == |data| == |old(data)| == LIMIT
      ensures if old(nextClus) == TOP then c == 0 && wide == old(wide) && data == old(data) && nextClus == TOP
              else
                && c != 0 && c == old(nextClus) && nextClus == c + 1 && c !in ch
                && Growing(wide0, wide, LIMIT, ch + [c])
                && data == old(data)[c := Pad(piece, SECTOR)]
    {
      hide Good, Growing;
      Sizes();
      c := AllocClus();
      if c == 0 {
        return;
      }
      GrowingStep(wide0, old(wide), LIMIT, ch, c);
      if prev != 0 {
        EndsIn(ch, first, prev);
        Link(prev, c);
      }
      assert wide == Linked(old(wide), ch, c);
      Write(c, piece);
      PutPad(piece, SECTOR);
    }

    static lemma EndsIn(ch: seq<nat>, first: nat, prev: nat)
      requires Ends(ch, first, prev) && prev != 0 && ch != [] && 2 <= ch[|ch|-1]
      ensures prev >= 2 && ch[|ch|-1] == prev
    {
    }

    /** The data half of add_file: a chain of new clusters that stores `bytes` (make_floppy.py:296-314). */
    method WritePieces(bytes: seq<byte>) returns (ok: bool, first: nat, ghost ch: seq<nat>)
      requires Good()
      modifies img, fat, this`nextClus, this`wide, this`data
      ensures Good() && |wide| == |data| == |old(data)| == LIMIT && Growing(old(wide), wide, LIMIT, ch)
      ensures forall c :: 0 <= c < |data| && c !in ch ==> data[c] == old(data)[c]
      ensures ok <==> old(nextClus) + NumClus(|bytes|, SECTOR) <= TOP
      ensures ok ==>
          first == HeadOf(ch) && Chains.Stores(data, SECTOR, ch, bytes)
            && nextClus == old(nextClus) + NumClus(|bytes|, SECTOR)
    {
      hide Good, Growing, Written, Chunks, NumClus, Cut, Ends, Stores;
      Sizes();
      first, ch := 0, [];
      var remain, prev: nat := bytes, 0;
      ghost var at: nat := 0;
      GrowingNone(wide, LIMIT);
      WrittenNone(data, SECTOR, Chunks(bytes, SECTOR));
      CutNone(bytes, SECTOR);
      EndsNone();
      while remain != []
        invariant Good() && at <= |bytes| && remain == bytes[at..] && |wide| == |data| == |old(data)| == LIMIT
        invariant Growing(old(wide), wide, LIMIT, ch) && Ends(ch, first, prev)
            && nextClus == old(nextClus) + |ch| <= TOP && prev < nextClus
        invariant Written(old(data), data, SECTOR, ch, Chunks(bytes, SECTOR)) && Cut(bytes, SECTOR, at, |ch|)
        decreases |remain|
      {
        CutStep(bytes, SECTOR, at, |ch|);
        var n := Min(|remain|, SECTOR);
        ghost var was := data;
        var c := AppendPiece(first, prev, remain[..n], old(wide), ch);
        if c == 0 {
          WrittenStores(old(data), data, SECTOR, ch, bytes);
          return false, first, ch;
        }
        assert remain[..n] == bytes[at..at+n];
        WrittenStep(old(data), was, SECTOR, ch, Chunks(bytes, SECTOR), c);
        EndsStep(ch, first, prev, c);
        if first == 0 {
          first := c;
        }
        remain := remain[n..];
        at := at + n;
        prev := c;
        ch := ch + [c];
        if remain == [] {
          GrowingEnd(old(wide), wide, LIMIT, ch);
          Link(c, EOC12);
        }
      }
      CutAll(bytes, SECTOR, |ch|);
      WrittenStores(old(data), data, SECTOR, ch, bytes);
      EndsHead(ch, first, prev);
      ok := true;
    }

    /** The bytes of the root stay its own while clusters are added. */
    lemma HungJoined(v: Vol, ch: seq<nat>)
      requires Good() && Fine(v, LIMIT, PER) && TOP in v.L.chains && v.L.chains[TOP] == RootChain()
      requires Distinct(ch) && (ch != [] ==> ch[0] !in v.L.chains) && L == Joined(v.L, ch, NOWHERE)
      requires ChainsOk(wide, LIMIT, L) && Fits(data, L, PER)
      ensures Hung()
    {
      hide Good, ChainsOk, Fits;
      Sizes();
    }

    /** A chain stored and kept aside: everything else is as before. */
    method StoreAside(bytes: seq<byte>) returns (ok: bool, first: nat, ghost ch: seq<nat>)
      requires Valid()
      modifies img, fat, this`nextClus, this`wide, this`data, this`L
      ensures Hung() && Fine(State(), LIMIT, PER) && Fine(old(State()), LIMIT, PER)
      ensures Growing(old(wide), wide, LIMIT, ch) && Distinct(ch) && AllKept(old(State()), State(), 0)
          && L == Joined(old(L), ch, NOWHERE)
      ensures L.depth == old(L).depth && AllSlots(data, L, PER) == AllSlots(old(data), old(L), PER)
      ensures ok <==> old(nextClus) + NumClus(|bytes|, SECTOR) <= TOP
      ensures ok ==> first == HeadOf(ch) < LIMIT && Chains.Stores(data, SECTOR, ch, bytes)
      ensures ok ==> nextClus == old(nextClus) + NumClus(|bytes|, SECTOR)
    {
      hide Valid, Hung, Good, Stores, NumClus, Joined, Growing, ChainsOk, AllSlots, SameChain, DataShape, DirItems,
           Sized, Fits;
      ghost var v := State();
      ValidIs();
      HungIs();
      RootIsThere12();
      ok, first, ch := WritePieces(bytes);
      Sizes();
      AddChain(v.fat, wide, v.data, data, LIMIT, v.L, PER, ch, NOWHERE);
      GrowingElsewhere(v.fat, wide, LIMIT, ch);
      L := Joined(L, ch, NOWHERE);
      HungJoined(v, ch);
      HungIs();
      AsideIs(v, State(), LIMIT, PER);
    }

    // -------------------------------------------------------------- directories

    /** The bytes are sound, the volume is well formed, and its directories are neat. */
    ghost predicate Valid()
      reads this`nextClus, this`wide, this`data, this`L, img, fat
      ensures Valid() ==> Hung()
    {
      Hung() && Sound(State(), LIMIT, TOP, PER) && NeatTree(Tree(), TOP)
    }

    /** The slots of every directory. */
    ghost function Tree(): Tree
      requires Hung()
      reads this`nextClus, this`wide, this`data, this`L, img, fat
    {
      AllSlots(data, L, PER)
    }

    lemma ValidIs()
      requires Valid()
      ensures Hung() && Sound(State(), LIMIT, TOP, PER) && NeatTree(TreeOf(State(), PER), TOP)
          && Tree() == TreeOf(State(), PER)
      ensures TOP in L.depth && Fits(data, L, PER)
    {
      hide Good, TreeOk, ChainsOk, DirItems;
      RootIsThere(DirItems(data, L, PER), L, TOP);
    }

    /** No two chains share a cluster: not the root's, a directory's, nor a file's. */
    lemma ChainsApart(h: nat, k: nat)
      requires Valid() && h in L.chains && k in L.chains && h != k
      ensures forall c :: c in L.chains[h] ==> c !in L.chains[k]
    {
      hide Good;
      Apart(L, h, k);
    }

    lemma DirThere(d: nat)
      requires Hung() && d in L.depth
      ensures d in L.chains && Sized(data, L.chains[d], PER)
    {
      hide Good, ChainsOk;
    }

    /** One component: the directory entry spelt `want`. */
    method Probe(clus: nat, want: Name, ghost d: nat, ghost S: Tree) returns (found: bool, ent: Entry)
      requires Hung() && S == Tree() && d in S && clus == Number(d)
      ensures var r := FindShort(S[d], want, 0); (found <==> r.Some?) && (found ==> ent == S[d][r.value])
    {
      hide Good, Holding, FindShort, Fine, Sized, DirSlots, SlotsOf;
      DirThere(d);
      var blob := ReadDir(clus, d);
      BlobIs(data, L, PER, d, blob);
      found, ent := ScanDir(blob, want);
    }

    /** A directory found names one, by the sixteen bits the builder reads. */
    lemma EntryLeads(d: nat, want: Name)
      requires Valid() && d in L.depth && d in Tree() && FindShort(Tree()[d], want, 0).Some?
      ensures var e := Tree()[d][FindShort(Tree()[d], want, 0).value];
        var next := if EntClus(e) == 0 then TOP else EntClus(e);
        next in L.depth && R16(e, 26) == Number(next)
    {
      hide Good, EntClus, IsDir, Dirs.Live, TreeOk, ChainsOk, DirSlots, R16;
      ValidIs();
      var i := FindShort(Tree()[d], want, 0).value;
      var e := Tree()[d][i];
      FoundThere(State(), LIMIT, TOP, PER, d, want, i);
      assert Shuns(Tree()[d], TOP);
      if EntClus(e) != 0 { DirInside(EntClus(e)); }
      LowHalf(e);
    }

    lemma DirInside(d: nat)
      requires Hung() && d in L.depth
      ensures 2 <= d < LIMIT
    {
      hide Good;
      DirThere(d);
      HeadIs(wide, LIMIT, L, d);
      assert PlaceOk(wide, LIMIT, L, d);
    }

    static lemma LowHalf(e: Entry)
      ensures EntClus(e) < 0x10000 ==> R16(e, 26) == EntClus(e)
    {
      hide R16;
    }

    /** _find_dir, by the builder's number (make_floppy.py:248-266). */
    method FindDir(parts: seq<Name>) returns (ok: bool, clus: nat, ghost d: nat)
      requires Valid()
      ensures ok <==> Led(State(), TOP, PER, parts).Some?
      ensures ok ==> Led(State(), TOP, PER, parts) == Some(d) && d in L.depth && clus == Number(d)
    {
      hide Good, Hung, Valid, Holding, ShortName, FindShort, Trail, Fine, Sized, EntClus, R16, Fits, AllSlots;
      ValidIs();
      ghost var S := Tree();
      clus, d := 0, TOP;
      var k := 0;
      TrailStep(S, TOP, TOP, []);
      while k < |parts|
        invariant 0 <= k <= |parts| && d in L.depth && clus == Number(d)
            && Trail(S, TOP, d, parts[k..]) == Trail(S, TOP, TOP, parts)
      {
        var found, ent := Probe(clus, ShortName(parts[k]), d, S);
        TrailStep(S, TOP, d, parts[k..]);
        assert parts[k..][0] == parts[k] && parts[k..][1..] == parts[k+1..];
        if !found {
          return false, clus, d;
        }
        EntryLeads(d, ShortName(parts[k]));
        clus, d := R16(ent, 26), if EntClus(ent) == 0 then TOP else EntClus(ent);
        k := k + 1;
      }
      TrailStep(S, TOP, d, parts[k..]);
      ok := true;
    }

    /** Where the records of a new entry go: behind all others. */
    lemma OpenDir(d: nat) returns (s: nat)
      requires Valid() && d in L.depth
      ensures d in L.chains && Sized(data, L.chains[d], PER) && d in Tree() && Tree()[d] == SlotsAt(data, L, PER, d)
      ensures s == FreeAt(Tree()[d]) && OpenAt(SlotsAt(data, L, PER, d), s) && |Tree()[d]| <= MAX_SLOTS
    {
      hide Good, TreeOk, DirSlots, ChainsOk;
      ValidIs();
      DirThere(d);
      TreeFacts(State(), LIMIT, TOP, PER);
      SlotsBound(d);
      NeatOpen(Tree()[d]);
      s := FreeAt(Tree()[d]);
    }

    lemma SlotsBound(d: nat)
      requires Valid() && d in L.depth
      ensures d in Tree() && |Tree()[d]| <= MAX_SLOTS
    {
      hide Good, ChainsOk, DirSlots;
      var D := DirItems(data, L, PER);
      assert d in D && DirOk(D, L, TOP, d);
      assert D[d] == ItemsOf(SlotsAt(data, L, PER, d), PerBytes(PER));
    }

    /** _add_dirent: the records of a name, in the first free slots; no directory grows (make_floppy.py:225-246). */
    method AddDirent(clus: nat, name: Name, attr: byte, first: nat, size: nat, ghost d: nat, ghost s: nat)
      returns (ok: bool, ghost recs: seq<Entry>)
      requires Hung() && d in L.depth && clus == Number(d) && d in L.chains && Sized(data, L.chains[d], PER)
      requires OpenAt(SlotsAt(data, L, PER, d), s)
      requires first < 0x10000 && size < 0x1_0000_0000 && attr in {ATTR_ARC, ATTR_DIR}
      modifies img, this`data
      ensures Good() && Fine(old(State()), LIMIT, PER) && |data| == |old(data)|
      ensures ok ==> Hung() && Fine(State(), LIMIT, PER) && RecordsOf(recs, name, attr, first, size) && recs != []
                     && PutRun(old(data), data, L, PER, d, s, recs)
      ensures ok <==> Numbered(name) && HasRun(old(SlotsAt(data, L, PER, d)), PER, 0, RunLength(name))
    {
      hide Hung, Good, Holding, Sized, RecordsOf, OpenAt, ChainsOk, DataShape, PutRun, Filled, DirSlots, SlotsOf,
           Overlay, Flat, RunLength, Fits, Numbered;
      HungIs();
      RootIsThere12();
      ghost var v := State();
      var records;
      ok, records := MakeRecords(name, attr, first, size);
      recs := records;
      if !ok {
        return;
      }
      RunLengthIs(recs, name, attr, first, size);
      var blob := ReadDir(clus, d);
      BlobIs(data, L, PER, d, blob);
      OpenIsFreeAt(SlotsAt(data, L, PER, d), s);
      var at := FreeSlots(blob, |records|, s);
      if at < 0 {
        return false, recs;
      }
      SplicedSlots(blob, s, records);
      blob := blob[..at] + Flat(records) + blob[at + 32 * |records|..];
      WriteDir(clus, blob, d);
      RunWritten(v, data, LIMIT, PER, d, s, recs, blob);
      HungByFine(v);
      ok := true;
    }

    /** Clusters rewritten in place leave the chains alone. */
    lemma HungByFine(v: Vol)
      requires Good() && Fine(State(), LIMIT, PER) && TOP in v.L.chains && v.L.chains[TOP] == RootChain()
          && L.chains == v.L.chains
      ensures Hung()
    {
      hide Good, ChainsOk;
    }

    /** A name given to what was kept aside changes no chain. */
    lemma HungNamed(y: Vol)
      requires Good() && Fine(y, LIMIT, PER) && TOP in y.L.chains && y.L.chains[TOP] == RootChain()
      requires wide == y.fat && data == y.data && L.chains == y.L.chains && L.places == y.L.places
          && forall d :: d in L.depth ==> d in L.chains
      ensures Hung()
    {
      hide Good, ChainsOk;
      ChainsIgnoreNames(wide, LIMIT, y.L, L);
      ChainsFit(wide, data, LIMIT, L, PER);
    }

    lemma DirsChained(y: Vol)
      requires Fits(y.data, y.L, PER) && L.chains == y.L.chains && L.depth == y.L.depth
      ensures forall k :: k in L.depth ==> k in L.chains
    {
    }

    /** Records written into a directory do not lengthen it. */
    static lemma SlotsSame(x: Vol, y: Vol, d: nat, s: nat, recs: seq<Entry>)
      requires Fits(x.data, x.L, PER) && Fits(y.data, y.L, PER) && y.L == x.L && d in x.L.depth
          && PutRun(x.data, y.data, x.L, PER, d, s, recs)
      ensures |SlotsAt(y.data, y.L, PER, d)| == |SlotsAt(x.data, x.L, PER, d)|
    {
      hide DirSlots;
    }

    /** The whole addition, once the records are written and the new chain has its name. */
    lemma NameFile(v: Vol, x: Vol, y: Vol, d: nat, s: nat, recs: seq<Entry>, ch: seq<nat>, name: Name, bytes: seq<byte>)
      requires Hung() && wide == y.fat && data == y.data
      requires Sound(v, LIMIT, TOP, PER) && NeatTree(TreeOf(v, PER), TOP) && Fine(x, LIMIT, PER) && Fine(y, LIMIT, PER)
      requires Entering(v, x, x, y, LIMIT, PER, d, 0, s, recs, ch) && Chains.Stores(x.data, SECTOR, ch, bytes)
      requires HeadOf(ch) < LIMIT && |bytes| < 0x1_0000_0000 && recs != []
      requires RecordsOf(recs, name, ATTR_ARC, HeadOf(ch), |bytes|)
          && L == Named(y.L, HeadOf(ch), Ref(d, s + |recs| - 1))
      requires |SlotsAt(y.data, y.L, PER, d)| <= MAX_SLOTS && forall k :: k in L.depth ==> k in L.chains
      ensures Inserted(v, State(), LIMIT, PER, d, recs)
      ensures Legible(name) ==> (Mendable(State(), LIMIT, TOP, PER) <==> !DotName(NoSpaces(name)))
      ensures Legible(name) && !DotName(NoSpaces(name)) ==>
          Valid() && Filed(v, State(), LIMIT, TOP, PER, d, recs, HeadOf(ch), name, bytes)
    {
      hide Hung, ChainsOk, TreeOk, DirSlots, DirItems, AllSlots, Sized, DataShape, Stores, RecordsOf, NeatTree,
           FileAdded, Kept, Named, Growing, Joined, AllKept, GrewBy, PutRun, OpenAt, FreeAt, NoSpaces, Mendable,
           Entering, Inserted, Lies, Legible;
      EnteringDir(v, x, x, y, LIMIT, PER, d, 0, s, recs, ch);
      NamedSame(y, HeadOf(ch), Ref(d, s + |recs| - 1));
      EnteringPlaces(v, x, x, y, State(), LIMIT, PER, d, 0, s, recs, ch);
      if !DotName(NoSpaces(name)) {
        if Legible(name) {
          FileDone(v, x, x, y, LIMIT, TOP, PER, TOP, d, 0, s, recs, ch, name, bytes);
          InsertedDir(v, State(), d, recs);
          SoundMends(State(), LIMIT, TOP, PER);
        }
      } else {
        EnteringSpoils(v, x, x, y, LIMIT, TOP, PER, d, 0, s, recs, ch, name, ATTR_ARC, HeadOf(ch), |bytes|);
        MendAny(y, L, LIMIT, TOP, PER);
      }
    }

    static lemma NamedSame(y: Vol, h: nat, ref: Ref)
      requires Fine(y, LIMIT, PER)
      ensures var L := Named(y.L, h, ref); L.chains == y.L.chains && L.places == y.L.places && L.depth == y.L.depth
    {
    }

    static lemma InsertedDir(v: Vol, z: Vol, dir: nat, recs: seq<Entry>)
      requires Inserted(v, z, LIMIT, PER, dir, recs)
      ensures Fine(v, LIMIT, PER) && Fine(z, LIMIT, PER) && dir in v.L.depth
          && Lies(TreeOf(v, PER), TreeOf(z, PER), dir, recs)
    {
      hide Lies, ChainsOk, DataShape, Kept;
    }

    /** add_file behind its lookup (make_floppy.py:292-315). */
    method FileInto(clus: nat, name: Name, bytes: seq<byte>, ghost d: nat, ghost s: nat)
      returns (ok: bool, ghost recs: seq<Entry>, ghost first: nat)
      requires Valid() && d in L.depth && clus == Number(d) && d in L.chains && Sized(data, L.chains[d], PER)
      requires s == FreeAt(SlotsAt(data, L, PER, d)) && OpenAt(SlotsAt(data, L, PER, d), s)
          && |SlotsAt(data, L, PER, d)| <= MAX_SLOTS
      modifies img, fat, this`nextClus, this`wide, this`data, this`L
      ensures Good()
      ensures ok <==>
          old(nextClus) + NumClus(|bytes|, SECTOR) <= TOP && Numbered(name)
            && HasRun(old(SlotsAt(data, L, PER, d)), PER, 0, RunLength(name))
      ensures ok ==> nextClus == old(nextClus) + NumClus(|bytes|, SECTOR)
      ensures ok ==> Inserted(old(State()), State(), LIMIT, PER, d, recs)
      ensures ok && Legible(name) ==> (Mendable(State(), LIMIT, TOP, PER) <==> !DotName(NoSpaces(name)))
      ensures ok && Legible(name) && !DotName(NoSpaces(name)) ==>
          Valid() && Filed(old(State()), State(), LIMIT, TOP, PER, d, recs, first, name, bytes)
    {
      hide Valid, Good, Stores, NumClus, Joined, Growing, AllSlots, SameChain, DataShape, DirItems, Sized, ChainsOk,
           HasRun, RunLength, RecordsOf, OpenAt, PutRun, Kept, AllKept, Hung, Filed, Named, FreeAt, TreeOk, NeatTree,
           DirSlots, Mendable, NoSpaces, Inserted, Legible, Numbered;
      recs, first := [], 0;
      ghost var v := State();
      ValidIs();
      var at;
      ghost var ch;
      ok, at, ch := StoreAside(bytes);
      HungIs();
      if !ok {
        return;
      }
      SizeBound(|bytes|, old(nextClus));
      first := at;
      ghost var x := State();
      SameTree(v, x, PER, d);
      DirThere(d);
      ok, recs := AddDirent(clus, name, ATTR_ARC, at, |bytes|, d, s);
      if !ok {
        return;
      }
      ghost var y := State();
      HungIs();
      RootIsThere12();
      assert Entering(v, x, x, y, LIMIT, PER, d, 0, s, recs, ch);
      SlotsSame(x, y, d, s, recs);
      L := Named(L, HeadOf(ch), Ref(d, s + |recs| - 1));
      DirsChained(y);
      HungNamed(y);
      NameFile(v, x, y, d, s, recs, ch, name, bytes);
    }

    /**
     * add_file (make_floppy.py:290-317). It fails exactly when the directory is not there, or the
     * clusters or the slots do not suffice, or the name has too many fragments. Exactly for names but
     * "." and ".." the volume is well formed again: the bytes are read under the new entry's names,
     * every other path is as before, and both tables of the image are up to date.
     */
    method AddFile(parts: seq<Name>, name: Name, bytes: seq<byte>)
      returns (ok: bool, ghost dir: nat, ghost recs: seq<Entry>, ghost first: nat)
      requires Valid()
      modifies img, fat, this`nextClus, this`wide, this`data, this`L
      ensures Good()
      ensures ok <==> CanHold(old(State()), old(nextClus), parts, name, NumClus(|bytes|, SECTOR))
      ensures ok ==> nextClus == old(nextClus) + NumClus(|bytes|, SECTOR)
      ensures ok ==> Led(old(State()), TOP, PER, parts) == Some(dir) && Mirrored()
      ensures ok ==> Inserted(old(State()), State(), LIMIT, PER, dir, recs)
      ensures ok && Legible(name) ==> (Mendable(State(), LIMIT, TOP, PER) <==> !DotName(NoSpaces(name)))
      ensures ok && Legible(name) && !DotName(NoSpaces(name)) ==>
          Valid() && Filed(old(State()), State(), LIMIT, TOP, PER, dir, recs, first, name, bytes)
    {
      hide Valid, Good, NumClus, DirItems, Sized, HasRun, RunLength, OpenAt, Hung, Led, Filed, FreeAt, ChainsOk,
           DataShape, DirSlots, NoSpaces, Mirrored, Mendable, Inserted, Legible, Numbered;
      recs, first := [], 0;
      ValidIs();
      HungIs();
      var found, clus;
      found, clus, dir := FindDir(parts);
      if !found {
        return false, dir, recs, first;
      }
      ghost var s := OpenDir(dir);
      ok, recs, first := FileInto(clus, name, bytes, dir, s);
      if ok { Flush(!Legible(name) || DotName(NoSpaces(name))); }
    }

    /** _write_fats touches neither the root nor the clusters. */
    method Flush(ghost odd: bool)
      requires Good() && (odd || Valid())
      modifies img
      ensures Good() && State() == old(State()) && (odd || Valid()) && Mirrored()
    {
      hide Good, TreeOk, ChainsOk, NeatTree, DirItems;
      WriteFats();
    }

    /** The next cluster, given the two dot entries (make_floppy.py:279-288). */
    method TakeDir(up: nat) returns (c: nat)
      requires Good() && up < 0x10000
      modifies img, fat, this`nextClus, this`wide, this`data
      ensures Good() && |wide| == |old(wide)| == |data| == |old(data)| == LIMIT
      ensures c == 0 ==> wide == old(wide) && data == old(data)
      ensures c == 0 <==> old(nextClus) + 1 > TOP
      ensures c != 0 ==> nextClus == old(nextClus) + 1
      ensures c != 0 ==> Growing(old(wide), wide, LIMIT, [c]) && 2 <= c < TOP && DotSlots(SlotsOf(data[c]), c, up)
      ensures c != 0 ==> forall k :: 0 <= k < |data| && k != c ==> data[k] == old(data)[k]
    {
      hide Good, DotSlots, SlotsOf, NewEntry, Growing;
      Sizes();
      c := AllocClus();
      if c == 0 {
        return;
      }
      GrowingOne(old(wide), LIMIT, c);
      var dot: seq<byte>, dots: seq<byte> := DotEntry([DOT], c), DotEntry([DOT, DOT], up);
      DotsPut(SECTOR, c, up, dot, dots);
      Write(c, dot + dots);
    }

    /** A new cluster with the two dot entries, kept aside (make_floppy.py:279-288). */
    method NewDir(up: nat) returns (c: nat)
      requires Valid() && up < 0x10000
      modifies img, fat, this`nextClus, this`wide, this`data, this`L
      ensures Hung() && Fine(State(), LIMIT, PER) && Fine(old(State()), LIMIT, PER)
      ensures c == 0 <==> old(nextClus) + 1 > TOP
      ensures c != 0 ==> nextClus == old(nextClus) + 1
      ensures c != 0 ==>
          Growing(old(wide), wide, LIMIT, [c]) && AllKept(old(State()), State(), 0) && L == Joined(old(L), [c], NOWHERE)
      ensures c != 0 ==> L.depth == old(L).depth && AllSlots(data, L, PER) == AllSlots(old(data), old(L), PER)
      ensures c != 0 ==> 2 <= c < TOP && c < |data| && c in L.chains && DotSlots(SlotsOf(data[c]), c, up)
    {
      hide Valid, Hung, Good, Joined, Growing, ChainsOk, AllSlots, SameChain, DataShape, DirItems, Sized, DotSlots,
           SlotsOf, NewEntry, Fits;
      ghost var v := State();
      ValidIs();
      HungIs();
      RootIsThere12();
      c := TakeDir(up);
      if c == 0 {
        HungNamed(v);
        return;
      }
      Sizes();
      AddChain(v.fat, wide, v.data, data, LIMIT, v.L, PER, [c], NOWHERE);
      L := Joined(L, [c], NOWHERE);
      HungJoined(v, [c]);
      HungIs();
      AsideIs(v, State(), LIMIT, PER);
      JoinedHas(v.L, c);
    }

    lemma NameDir(v: Vol, x: Vol, y: Vol, d: nat, s: nat, recs: seq<Entry>, c: nat, name: Name)
      requires Hung() && wide == y.fat && data == y.data && d in v.L.depth && d != 0
      requires Sound(v, LIMIT, TOP, PER) && NeatTree(TreeOf(v, PER), TOP) && Fine(x, LIMIT, PER) && Fine(y, LIMIT, PER)
      requires Entering(v, x, x, y, LIMIT, PER, d, 0, s, recs, [c]) && 2 <= c < TOP
          && DotSlots(SlotsOf(x.data[c]), c, Number(d))
      requires recs != [] && RecordsOf(recs, name, ATTR_DIR, c, 0) && L == NamedDir(y.L, c, Ref(d, s + |recs| - 1))
      requires |SlotsAt(y.data, y.L, PER, d)| <= MAX_SLOTS && forall k :: k in L.depth ==> k in L.chains
      ensures Inserted(v, State(), LIMIT, PER, d, recs)
      ensures Legible(name) ==> (Mendable(State(), LIMIT, TOP, PER) <==> !DotName(NoSpaces(name)))
      ensures Legible(name) && !DotName(NoSpaces(name)) ==>
          Valid() && Made(v, State(), LIMIT, TOP, PER, d, recs, c, name)
    {
      hide Hung, ChainsOk, TreeOk, DirSlots, DirItems, AllSlots, Sized, DataShape, RecordsOf, NeatTree, DirAdded, Kept,
           DotSlots, SlotsOf, Growing, Joined, AllKept, GrewBy, PutRun, OpenAt, FreeAt, NoSpaces, NamedDir, Mendable,
           Entering, Inserted, Lies, Legible, Vacant;
      EnteringDir(v, x, x, y, LIMIT, PER, d, 0, s, recs, [c]);
      NamedChains(y.L, c, Ref(d, s + |recs| - 1));
      EnteringPlaces(v, x, x, y, State(), LIMIT, PER, d, 0, s, recs, [c]);
      if !DotName(NoSpaces(name)) {
        if Legible(name) {
          DirDone(v, x, x, y, LIMIT, TOP, PER, TOP, d, 0, s, recs, c, Number(d), name);
          InsertedDir(v, State(), d, recs);
          SoundMends(State(), LIMIT, TOP, PER);
        }
      } else {
        EnteringSpoils(v, x, x, y, LIMIT, TOP, PER, d, 0, s, recs, [c], name, ATTR_DIR, c, 0);
        MendAny(y, L, LIMIT, TOP, PER);
      }
    }

    static lemma NamedChains(T: Layout, c: nat, ref: Ref)
      ensures var L := NamedDir(T, c, ref);
          L.chains == T.chains && L.places == T.places && (forall d :: d in L.depth ==> d in T.depth || d == c)
            && forall d :: d in T.depth ==> d in L.depth
    {
    }

    static lemma EnteringNow(v: Vol, x: Vol, y: Vol, d: nat, s: nat, recs: seq<Entry>, c: nat)
      requires Fine(v, LIMIT, PER) && Fine(x, LIMIT, PER) && Fine(y, LIMIT, PER) && d in v.L.depth && d in x.L.depth
      requires s == FreeAt(SlotsAt(v.data, v.L, PER, d)) && OpenAt(SlotsAt(x.data, x.L, PER, d), s)
      requires Growing(v.fat, x.fat, LIMIT, [c]) && AllKept(v, x, 0) && x.L == Joined(v.L, [c], NOWHERE)
      requires x.L.depth == v.L.depth && AllSlots(x.data, x.L, PER) == AllSlots(v.data, v.L, PER)
      requires y.fat == x.fat && y.L == x.L && PutRun(x.data, y.data, x.L, PER, d, s, recs)
      ensures Entering(v, x, x, y, LIMIT, PER, d, 0, s, recs, [c])
    {
      hide ChainsOk, DirSlots, AllSlots, PutRun, OpenAt, FreeAt, Growing, Joined, AllKept, DataShape, Fits;
    }

    static lemma DirChains(y: Vol, c: nat)
      requires Fits(y.data, y.L, PER) && c in y.L.chains
      ensures forall d :: d in y.L.depth || d == c ==> d in y.L.chains
    {
    }

    /** mkdir behind its lookups (make_floppy.py:279-289). */
    method MkdirInto(clus: nat, name: Name, ghost d: nat, ghost s: nat)
      returns (ok: bool, ghost recs: seq<Entry>, ghost c: nat)
      requires Valid() && d in L.depth && clus == Number(d) && 2 <= d < LIMIT && d in L.chains
          && Sized(data, L.chains[d], PER)
      requires s == FreeAt(SlotsAt(data, L, PER, d)) && OpenAt(SlotsAt(data, L, PER, d), s)
          && |SlotsAt(data, L, PER, d)| <= MAX_SLOTS
      modifies img, fat, this`nextClus, this`wide, this`data, this`L
      ensures Good()
      ensures ok <==>
          old(nextClus) + 1 <= TOP && Numbered(name) && HasRun(old(SlotsAt(data, L, PER, d)), PER, 0, RunLength(name))
      ensures ok ==> nextClus == old(nextClus) + 1
      ensures ok ==> Inserted(old(State()), State(), LIMIT, PER, d, recs)
      ensures ok && Legible(name) ==> (Mendable(State(), LIMIT, TOP, PER) <==> !DotName(NoSpaces(name)))
      ensures ok && Legible(name) && !DotName(NoSpaces(name)) ==>
          Valid() && Made(old(State()), State(), LIMIT, TOP, PER, d, recs, c, name)
    {
      hide Valid, Good, Joined, Growing, AllSlots, SameChain, DataShape, DirItems, Sized, ChainsOk, DotSlots, SlotsOf,
           HasRun, RunLength, RecordsOf, GrewBy, OpenAt, PutRun, DirAdded, Kept, AllKept, Hung, Made, NamedDir, FreeAt,
           TreeOk, NeatTree, DirSlots, NoSpaces, Fits, Mendable, Inserted, Legible, Numbered;
      recs := [];
      ghost var v := State();
      ValidIs();
      var newc := NewDir(clus);
      c := newc;
      HungIs();
      if newc == 0 {
        return false, recs, c;
      }
      ghost var x := State();
      SameTree(v, x, PER, d);
      DirThere(d);
      ok, recs := AddDirent(clus, name, ATTR_DIR, newc, 0, d, s);
      if !ok {
        return;
      }
      HungIs();
      RootIsThere12();
      ghost var y := State();
      EnteringNow(v, x, y, d, s, recs, c);
      SlotsSame(x, y, d, s, recs);
      L := NamedDir(L, c, Ref(d, s + |recs| - 1));
      NamedChains(y.L, c, Ref(d, s + |recs| - 1));
      DirChains(y, c);
      HungNamed(y);
      NameDir(v, x, y, d, s, recs, c, name);
    }

    /**
     * mkdir (make_floppy.py:268-289). A directory whose short name is in use there already is left
     * alone; otherwise it fails exactly when its parent is not there or there is no room.
     */
    method Mkdir(parts: seq<Name>, name: Name)
      returns (ok: bool, ghost dir: nat, ghost there: bool, ghost recs: seq<Entry>, ghost c: nat)
      requires Valid()
      modifies img, fat, this`nextClus, this`wide, this`data, this`L
      ensures Good()
      ensures there <==> Occupied(old(State()), TOP, PER, parts, name)
      ensures ok <==> there || CanHold(old(State()), old(nextClus), parts, name, 1)
      ensures ok ==> nextClus == old(nextClus) + if there then 0 else 1
      ensures there ==> State() == old(State()) && Valid()
      ensures ok && !there ==>
          Led(old(State()), TOP, PER, parts) == Some(dir) && Inserted(old(State()), State(), LIMIT, PER, dir, recs)
      ensures ok && !there && Legible(name) ==> (Mendable(State(), LIMIT, TOP, PER) <==> !DotName(NoSpaces(name)))
      ensures ok && !there && Legible(name) && !DotName(NoSpaces(name)) ==>
          Valid() && Made(old(State()), State(), LIMIT, TOP, PER, dir, recs, c, name)
    {
      hide Valid, Good, DirItems, Sized, HasRun, RunLength, OpenAt, Hung, Led, Made, FreeAt, ChainsOk, DataShape,
           DirSlots, ShortName, Listed, SlotsOf, Holding, NoSpaces, Mendable, Inserted, Legible, Numbered, Occupied,
           CanHold, TreeOk, NeatTree;
      recs, c, there := [], 0, false;
      ValidIs();
      HungIs();
      MkdirAsks(State(), nextClus, parts, name);
      var found, clus;
      found, clus, dir := FindDir(parts);
      if !found {
        return false, dir, there, recs, c;
      }
      ghost var s := OpenDir(dir);
      var blob := ReadDir(clus, dir);
      BlobIs(data, L, PER, dir, blob);
      var listed := IsListed(blob, ShortName(name));
      there := listed;
      if listed {
        return true, dir, there, recs, c;
      }
      DirInside(dir);
      ok, recs, c := MkdirInto(clus, name, dir, s);
    }

    /**
     * The calls of the tool, one after another (make_floppy.py:349-353). It stops when one fails, or in
     * front of one that would spoil the volume; up to there the volume is well formed and the image
     * comes about by a run of additions. `next` is the first free cluster where a call fails.
     */
    method Fill(ops: seq<Builds.Op>)
      returns (ok: bool, n: nat, ghost next: nat, ghost vs: seq<Vol>, ghost deeds: seq<Builds.Deed>)
      requires Valid()
      modifies img, fat, this`nextClus, this`wide, this`data, this`L
      ensures Good() && Builds.Run(vs, deeds, LIMIT, TOP, PER, TOP) && vs != [] && vs[0] == old(State())
      ensures n <= |ops| && |deeds| == n && |vs| == n + 1 && forall i :: 0 <= i < n ==> deeds[i].op == ops[i]
      ensures if ok then Valid() && vs[n] == State() && (n < |ops| ==> !Builds.Sane(ops[n]))
              else n < |ops| && next == old(nextClus) + Builds.TookAll(deeds, SECTOR) && !Can(vs[n], next, ops[n])
    {
      hide Valid, Good, Hung, Can, Builds.Did, Builds.Run, Builds.Sane, Fine, Builds.TookAll, Builds.Took;
      vs, deeds, ok, n, next := [State()], [], true, 0, nextClus;
      RunStarts();
      NoneTook();
      while n < |ops| && Builds.Sane(ops[n])
        invariant 0 <= n <= |ops| && ok && Valid() && Builds.Run(vs, deeds, LIMIT, TOP, PER, TOP)
            && |vs| == |deeds| + 1 == n + 1
        invariant vs[0] == old(State()) && vs[n] == State() && forall k :: 0 <= k < n ==> deeds[k].op == ops[k]
        invariant nextClus == old(nextClus) + Builds.TookAll(deeds, SECTOR)
      {
        ghost var d;
        next := nextClus;
        ok, d := Obey(ops[n]);
        if !ok {
          return;
        }
        StateFine();
        Builds.RunMore(vs, deeds, LIMIT, TOP, PER, TOP, State(), d);
        Builds.TookMore(deeds, d, SECTOR);
        vs, deeds := vs + [State()], deeds + [d];
        n := n + 1;
      }
      StateFine();
    }

    lemma StateFine()
      requires Valid()
      ensures Good() && Fine(State(), LIMIT, PER)
    {
      hide Good, ChainsOk, TreeOk;
    }

    static lemma NoneTook()
      ensures Builds.TookAll([], SECTOR) == 0
    {
    }

    lemma RunStarts()
      requires Valid()
      ensures Good() && Builds.Run([State()], [], LIMIT, TOP, PER, TOP)
    {
      hide Good, ChainsOk, TreeOk;
    }

    method Obey(op: Builds.Op) returns (ok: bool, ghost d: Builds.Deed)
      requires Valid() && Builds.Sane(op)
      modifies img, fat, this`nextClus, this`wide, this`data, this`L
      ensures Good()
      ensures ok <==> Can(old(State()), old(nextClus), op)
      ensures ok ==> nextClus == old(nextClus) + Builds.Took(d, SECTOR)
      ensures ok ==> Valid() && d.op == op && Builds.Did(old(State()), State(), LIMIT, TOP, PER, TOP, d)
    {
      hide Valid, Good, Hung, CanHold, Occupied, Fine, TreeOk, NeatTree, Filed, Made, Trail, Inserted, Mendable,
           NumClus;
      ValidIs();
      ghost var dir, recs, first, there;
      match op
      case AddFile(parts, name, bytes) =>
        ok, dir, recs, first := AddFile(parts, name, bytes);
        d := Builds.Deed(op, dir, recs, first, false);
      case Mkdir(parts, name) =>
        ok, dir, there, recs, first := Mkdir(parts, name);
        d := Builds.Deed(op, dir, recs, first, there);
    }
  }
}
