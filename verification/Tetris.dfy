/**
 * The rules of the falling-block game (kernel/src/tetris.c:320-573, 795-903): what every key,
 * frame and pause keeps, and what clearing rows does to the well.
 */
module Tetris {
  const WELL_W: nat := 10
  const WELL_H: nat := 20
  const DAS_DELAY: int := 16
  const DAS_PERIOD: int := 6
  const CLEAR_FRAMES: nat := 20
  const KINDS: nat := 7

  type Row = r: seq<nat> | |r| == WELL_W witness seq(WELL_W, _ => 0)

  function Empty(): Row { seq(WELL_W, _ => 0) }

  /** A cell of a piece, or of the well: column and row. */
  datatype Cell = Cell(x: int, y: int)

  /** The four blocks of each kind and turn, from the top left of a 4 by 4 box (tetris.c:51-98). */
  function Shape(k: nat, r: nat): (s: seq<Cell>)
    requires k < KINDS && r < 4
    ensures |s| == 4 && (forall i :: 0 <= i < 4 ==> 0 <= s[i].x <= 3 && 0 <= s[i].y <= 3)
    ensures forall i, j :: 0 <= i < j < 4 ==> s[i] != s[j]
  {
    if k == 0 then
      if r == 0 then [Cell(1, 0), Cell(0, 1), Cell(1, 1), Cell(2, 1)]
      else if r == 1 then [Cell(1, 0), Cell(1, 1), Cell(2, 1), Cell(1, 2)]
      else if r == 2 then [Cell(0, 1), Cell(1, 1), Cell(2, 1), Cell(1, 2)]
      else [Cell(1, 0), Cell(0, 1), Cell(1, 1), Cell(1, 2)]
    else if k == 1 then
      if r == 0 then [Cell(0, 0), Cell(1, 0), Cell(2, 0), Cell(2, 1)]
      else if r == 1 then [Cell(1, 0), Cell(1, 1), Cell(0, 2), Cell(1, 2)]
      else if r == 2 then [Cell(0, 1), Cell(0, 2), Cell(1, 2), Cell(2, 2)]
      else [Cell(1, 0), Cell(2, 0), Cell(1, 1), Cell(1, 2)]
    else if k == 2 then
      if r == 0 || r == 2 then [Cell(0, 0), Cell(1, 0), Cell(1, 1), Cell(2, 1)]
      else [Cell(2, 0), Cell(1, 1), Cell(2, 1), Cell(1, 2)]
    else if k == 3 then [Cell(1, 0), Cell(2, 0), Cell(1, 1), Cell(2, 1)]
    else if k == 4 then
      if r == 0 || r == 2 then [Cell(1, 0), Cell(2, 0), Cell(0, 1), Cell(1, 1)]
      else [Cell(1, 0), Cell(1, 1), Cell(2, 1), Cell(2, 2)]
    else if k == 5 then
      if r == 0 then [Cell(0, 0), Cell(1, 0), Cell(2, 0), Cell(0, 1)]
      else if r == 1 then [Cell(0, 0), Cell(1, 0), Cell(1, 1), Cell(1, 2)]
      else if r == 2 then [Cell(2, 1), Cell(0, 2), Cell(1, 2), Cell(2, 2)]
      else [Cell(1, 0), Cell(1, 1), Cell(1, 2), Cell(2, 2)]
    else
      if r == 0 || r == 2 then [Cell(0, 1), Cell(1, 1), Cell(2, 1), Cell(3, 1)]
      else [Cell(2, 0), Cell(2, 1), Cell(2, 2), Cell(2, 3)]
  }

  /** The cells of a piece whose box lies at (x, y). */
  function Cells(k: nat, r: nat, x: int, y: int): (s: seq<Cell>)
    requires k < KINDS && r < 4
    ensures |s| == 4 && forall i, j :: 0 <= i < j < 4 ==> s[i] != s[j]
    ensures forall i :: 0 <= i < 4 ==> x <= s[i].x <= x + 3 && y <= s[i].y <= y + 3
  {
    var b := Shape(k, r);
    seq(4, i requires 0 <= i < 4 => Cell(x + b[i].x, y + b[i].y))
  }

  /** `n` empty rows. */
  function Blank(n: nat): (r: seq<Row>)
    ensures |r| == n && forall y :: 0 <= y < n ==> r[y] == Empty()
  {
    if n == 0 then [] else Blank(n - 1) + [Empty()]
  }

  type Well = w: seq<Row> | |w| == WELL_H witness Blank(WELL_H)

  /** blocked_at (tetris.c:368-377). */
  predicate Blocked(w: Well, c: Cell) {
    if c.x < 0 || c.x >= WELL_W || c.y >= WELL_H then true
    else if c.y < 0 then false
    else w[c.y][c.x] != 0
  }

  ghost predicate Collides(w: Well, k: nat, r: nat, x: int, y: int)
    requires k < KINDS && r < 4
  {
    exists i :: 0 <= i < 4 && Blocked(w, Cells(k, r, x, y)[i])
  }

  // ---------------------------------------------------------------- counting

  function Used(v: nat): nat { if v == 0 then 0 else 1 }

  /** Filled cells of the first `n` columns of a row. */
  function Filled(r: Row, n: nat): (c: nat)
    requires n <= WELL_W
    ensures c <= n
  {
    if n == 0 then 0 else Filled(r, n - 1) + Used(r[n-1])
  }

  predicate Full(r: Row) { forall x :: 0 <= x < WELL_W ==> r[x] != 0 }

  lemma {:induction false} FullCount(r: Row, n: nat)
    requires n <= WELL_W
    ensures Filled(r, n) == n <==> forall x :: 0 <= x < n ==> r[x] != 0
  {
    if n > 0 { FullCount(r, n - 1); }
  }

  lemma {:induction false} FilledSet(r: Row, x: nat, v: nat, n: nat)
    requires x < WELL_W && n <= WELL_W
    ensures Filled(r[x := v], n) == Filled(r, n) + if x < n then Used(v) - Used(r[x]) else 0
  {
    if n > 0 { FilledSet(r, x, v, n - 1); }
  }

  lemma {:induction false} FilledEmpty(n: nat)
    requires n <= WELL_W
    ensures Filled(Empty(), n) == 0
  {
    if n > 0 { FilledEmpty(n - 1); }
  }

  /** Filled cells of several rows. */
  function Total(rows: seq<Row>): nat {
    if rows == [] then 0 else Total(rows[..|rows|-1]) + Filled(rows[|rows|-1], WELL_W)
  }

  function FullRows(rows: seq<Row>): (n: nat)
    ensures n <= |rows|
  {
    if rows == [] then 0 else FullRows(rows[..|rows|-1]) + if Full(rows[|rows|-1]) then 1 else 0
  }

  lemma {:induction false} TotalSet(rows: seq<Row>, y: nat, r: Row)
    requires y < |rows|
    ensures Total(rows[y := r]) == Total(rows) - Filled(rows[y], WELL_W) + Filled(r, WELL_W)
  {
    var n := |rows| - 1;
    if y == n {
      assert rows[y := r][..n] == rows[..n];
    } else {
      assert rows[y := r][..n] == rows[..n][y := r];
      TotalSet(rows[..n], y, r);
    }
  }

  lemma {:induction false} TotalSplit(a: seq<Row>, b: seq<Row>)
    ensures Total(a + b) == Total(a) + Total(b)
    decreases |b|
  {
    if b == [] {
      assert a + b == a;
    } else {
      assert (a + b)[..|a + b|-1] == a + b[..|b|-1];
      TotalSplit(a, b[..|b|-1]);
    }
  }

  lemma {:induction false} TotalEmpty(n: nat)
    ensures Total(Blank(n)) == 0
  {
    if n > 0 {
      assert Blank(n)[..n-1] == Blank(n - 1);
      TotalEmpty(n - 1);
      FilledEmpty(WELL_W);
    }
  }

  ghost predicate NoneFull(rows: seq<Row>) { forall y :: 0 <= y < |rows| ==> !Full(rows[y]) }

  lemma {:induction false} NoneFullCount(rows: seq<Row>)
    ensures FullRows(rows) == 0 <==> NoneFull(rows)
  {
    if rows != [] {
      var n := |rows| - 1;
      NoneFullCount(rows[..n]);
      assert forall y :: 0 <= y < n ==> rows[..n][y] == rows[y];
    }
  }

  // ---------------------------------------------------------------- clearing rows

  /** The rows that are not full, in order. */
  function Kept(rows: seq<Row>): (r: seq<Row>)
    ensures |r| + FullRows(rows) == |rows|
    ensures forall y :: 0 <= y < |r| ==> !Full(r[y])
  {
    if rows == [] then []
    else if Full(rows[|rows|-1]) then Kept(rows[..|rows|-1])
    else Kept(rows[..|rows|-1]) + [rows[|rows|-1]]
  }

  /** Full rows taken out and as many empty ones put on top. */
  function Cleared(rows: seq<Row>): (r: seq<Row>)
    ensures |r| == |rows|
  {
    Blank(FullRows(rows)) + Kept(rows)
  }

  lemma {:induction false} KeptTotal(rows: seq<Row>)
    ensures Total(Kept(rows)) + WELL_W * FullRows(rows) == Total(rows)
  {
    if rows != [] {
      var n, last := |rows| - 1, rows[|rows|-1];
      KeptTotal(rows[..n]);
      FullCount(last, WELL_W);
      if !Full(last) {
        var k := Kept(rows[..n]);
        assert (k + [last])[..|k|] == k;
      }
    }
  }

  /** Clearing leaves no full row, and takes ten cells for each. */
  lemma ClearedFacts(rows: seq<Row>)
    ensures NoneFull(Cleared(rows)) && Total(Cleared(rows)) + WELL_W * FullRows(rows) == Total(rows)
  {
    TotalSplit(Blank(FullRows(rows)), Kept(rows));
    TotalEmpty(FullRows(rows));
    KeptTotal(rows);
    assert Empty()[0] == 0;
  }

  lemma {:induction false} KeptCons(r: Row, rows: seq<Row>)
    ensures Kept([r] + rows) == (if Full(r) then [] else [r]) + Kept(rows)
    ensures FullRows([r] + rows) == (if Full(r) then 1 else 0) + FullRows(rows)
    decreases |rows|
  {
    hide Full;
    if rows == [] {
      assert [r] + rows == [r] && [r][..0] == [];
    } else {
      var n := |rows| - 1;
      assert ([r] + rows)[..n + 1] == [r] + rows[..n] && ([r] + rows)[n + 1] == rows[n];
      KeptCons(r, rows[..n]);
    }
  }

  // ---------------------------------------------------------------- stamping a piece

  /** The first `n` cells of a piece set to `v`. */
  function Stamped(w: Well, cells: seq<Cell>, n: nat, v: nat): (r: Well)
    requires n <= |cells| && forall i :: 0 <= i < |cells| ==> 0 <= cells[i].x < WELL_W && 0 <= cells[i].y < WELL_H
  {
    if n == 0 then w
    else
      var s := Stamped(w, cells, n - 1, v);
      var c := cells[n-1];
      s[c.y := s[c.y][c.x := v]]
  }

  lemma {:induction false} StampedAt(w: Well, cells: seq<Cell>, n: nat, v: nat, x: nat, y: nat)
    requires n <= |cells| && forall i :: 0 <= i < |cells| ==> 0 <= cells[i].x < WELL_W && 0 <= cells[i].y < WELL_H
    requires x < WELL_W && y < WELL_H
    ensures Stamped(w, cells, n, v)[y][x] == if Cell(x, y) in cells[..n] then v else w[y][x]
  {
    if n > 0 {
      StampedAt(w, cells, n - 1, v, x, y);
      assert cells[..n] == cells[..n-1] + [cells[n-1]];
    }
  }

  /** Stamping `n` distinct empty cells fills that many. */
  lemma {:induction false} StampedTotal(w: Well, cells: seq<Cell>, n: nat, v: nat)
    requires n <= |cells| && forall i :: 0 <= i < |cells| ==> 0 <= cells[i].x < WELL_W && 0 <= cells[i].y < WELL_H
    requires v != 0 && (forall i, j :: 0 <= i < j < |cells| ==> cells[i] != cells[j])
    requires forall i :: 0 <= i < |cells| ==> w[cells[i].y][cells[i].x] == 0
    ensures Total(Stamped(w, cells, n, v)) == Total(w) + n
  {
    hide Total, Filled;
    if n > 0 {
      var s, c := Stamped(w, cells, n - 1, v), cells[n-1];
      StampedTotal(w, cells, n - 1, v);
      StampedAt(w, cells, n - 1, v, c.x, c.y);
      assert Cell(c.x, c.y) == c;
      FilledSet(s[c.y], c.x, v, WELL_W);
      TotalSet(s, c.y, s[c.y][c.x := v]);
    }
  }

  // ---------------------------------------------------------------- the game

  datatype Phase = Play | Are | Clear | Pause | Over | Name

  /** Keys as the keyboard delivers them: characters, and a code of its own for each arrow. */
  const KBD_UP: int := 0x110

  predicate Quits(key: int) { key == 'q' as int || key == 'Q' as int }
  predicate Pauses(key: int) { key == 'p' as int || key == 'P' as int }
  predicate TurnsRight(key: int) { key == 'x' as int || key == 'X' as int || key == KBD_UP }
  predicate TurnsLeft(key: int) { key == 'z' as int || key == 'Z' as int }
  predicate Enters(key: int) { key == 10 || key == 13 }
  predicate Erases(key: int) { key == 8 || key == 0x7F }
  predicate IsLetter(key: int) { 'a' as int <= key <= 'z' as int || 'A' as int <= key <= 'Z' as int }

  function Capital(key: int): (c: char)
    requires IsLetter(key)
    ensures 'A' <= c <= 'Z'
  {
    if 'a' as int <= key then (key - 32) as char else key as char
  }

  /** The name on the score table, and how many of its letters were typed. */
  datatype Initials = Initials(text: string, typed: nat)
  {
    /** Three capitals at most; a suggestion stands until the first letter. */
    predicate Ok() {
      && typed <= |text| <= 3 && (typed == 0 || |text| == typed)
      && forall i :: 0 <= i < |text| ==> 'A' <= text[i] <= 'Z'
    }

    function Type(c: char): Initials
      requires typed <= |text|
    {
      Initials(text[..typed] + [c], typed + 1)
    }

    function Rub(): Initials
      requires 0 < typed <= |text|
    {
      Initials(text[..typed - 1], typed - 1)
    }

    /** What is put on the table. */
    function Entered(): string { if text == "" then "AAA" else text }
  }

  const SUGGESTED: Initials := Initials("AAA", 0)

  /** A letter typed and rubbed out leaves what was typed before; the suggestion does not come back. */
  lemma RubUndoesType(n: Initials, c: char)
    requires n.Ok() && n.typed < 3
    ensures n.Type(c).Rub() == Initials(n.text[..n.typed], n.typed)
    ensures n.typed > 0 ==> n.Type(c).Rub() == n
    ensures n == SUGGESTED ==> n.Type(c).Rub().Entered() == n.Entered()
  {
    assert (n.text[..n.typed] + [c])[..n.typed] == n.text[..n.typed];
    if n.typed > 0 { assert n.text[..n.typed] == n.text; }
  }

  /** Frames to wait before the next piece (tetris.c:330-342). */
  function AreFrames(lockY: int): nat {
    var up := if WELL_H - 1 - lockY < 0 then 0 else WELL_H - 1 - lockY;
    var d := 10 + up / 4 * 2;
    if d > 18 then 18 else d
  }

  /** Frames a row, by level (tetris.c:155-174). */
  function GravFrames(level: nat): (g: nat)
    ensures g >= 1
  {
    var low := [48, 43, 38, 33, 28, 23, 18, 13, 8, 6];
    if level >= 29 then 1 else if level >= 19 then 2 else if level >= 16 then 3
    else if level >= 13 then 4 else if level >= 10 then 5 else low[level]
  }

  /** Line score (tetris.c:494-504). */
  function LineScore(n: nat, level: nat): nat {
    var k := if n > 4 then 4 else n;
    [0, 40, 100, 300, 1200][k] * (level + 1)
  }

  class Game {
    const well: array<Row>
    const clearRow: array<bool>
    var px: int
    var py: int
    var prot: nat
    var cur: nat
    var nxt: nat
    var level: nat
    var lines: nat
    var nextLevelAt: nat
    var score: nat
    var gravLeft: nat
    var das: int
    var dasDir: int
    var waitLeft: nat
    var state: Phase
    var pausedFrom: Phase
    var running: bool
    var initials: Initials
    ghost var locked: nat

    /** The phase, seen through a pause. */
    ghost function Phase(): Phase
      reads this
    {
      if state == Pause then pausedFrom else state
    }

    /** Rows marked and counted in `lines`, but not yet taken out. */
    ghost function Pending(): nat
      reads this, well
    {
      if Phase() == Clear then FullRows(well[..]) else 0
    }

    ghost predicate Shaped()
      reads this
    {
      well.Length == WELL_H && clearRow.Length == WELL_H && prot < 4 && cur < KINDS && nxt < KINDS
        && pausedFrom !in {Pause, Over, Name} && initials.Ok()
    }

    /**
     * A falling piece overlaps nothing; no row is full but while rows are being cleared, and then
     * the full ones are marked; and every locked piece's cells are in the well or were cleared.
     */
    ghost predicate Valid()
      reads this, well, clearRow
    {
      && Shaped()
      && (Phase() == Play ==> !Collides(well[..], cur, prot, px, py) && py >= 0)
      && (Phase() == Clear ==> forall y :: 0 <= y < WELL_H ==> (clearRow[y] <==> Full(well[y])))
      && (Phase() != Clear ==> NoneFull(well[..]))
      && Total(well[..]) + WELL_W * lines == 4 * locked + WELL_W * Pending()
      && lines < nextLevelAt
    }

    /** collides (tetris.c:380-391). */
    method CollidesAt(k: nat, r: nat, x: int, y: int) returns (hit: bool)
      requires well.Length == WELL_H && k < KINDS && r < 4
      ensures hit == Collides(well[..], k, r, x, y)
    {
      hide Shape, Cells;
      var cells := Cells(k, r, x, y);
      var i := 0;
      while i < 4
        invariant 0 <= i <= 4 && forall j :: 0 <= j < i ==> !Blocked(well[..], cells[j])
      {
        var c := cells[i];
        if c.x < 0 || c.x >= WELL_W || c.y >= WELL_H || (c.y >= 0 && well[c.y][c.x] != 0) {
          assert Blocked(well[..], cells[i]);
          return true;
        }
        i := i + 1;
      }
      hit := false;
    }

    /** try_move (tetris.c:407-416). */
    method TryMove(dx: int, dy: int) returns (moved: bool)
      requires Valid() && state == Play && dy >= 0
      modifies this`px, this`py
      ensures Valid() && moved == !old(Collides(well[..], cur, prot, px + dx, py + dy))
      ensures if moved then px == old(px) + dx && py == old(py) + dy else px == old(px) && py == old(py)
    {
      hide Collides, Total, FullRows, Full, NoneFull;
      var hit := CollidesAt(cur, prot, px + dx, py + dy);
      if hit {
        return false;
      }
      px, py := px + dx, py + dy;
      moved := true;
    }

    /** try_rot (tetris.c:419-426): a turn that collides is ignored. */
    method TryRot(dir: int)
      requires Valid() && state == Play && dir in {-1, 1}
      modifies this`prot
      ensures Valid()
      ensures var r := (old(prot) + dir) % 4;
              prot == if Collides(well[..], cur, r, px, py) then old(prot) else r
    {
      hide Collides, Total, FullRows, Full, NoneFull;
      var nr := (prot + dir) % 4;
      var hit := CollidesAt(cur, nr, px, py);
      if !hit {
        prot := nr;
      }
    }

    /** The counters agree with the well, in which no row is full. */
    ghost predicate Settled()
      reads this`lines, this`locked, this`nextLevelAt, well
    {
      NoneFull(well[..]) && Total(well[..]) + WELL_W * lines == 4 * locked && lines < nextLevelAt
    }

    lemma ValidSettles()
      requires Valid() && Phase() != Clear
      ensures Settled() && Shaped()
    {
      hide Collides, Total, FullRows, Full, NoneFull;
    }

    lemma SettledIsValid()
      requires Settled() && Shaped() && Phase() != Clear
          && (Phase() == Play ==> !Collides(well[..], cur, prot, px, py) && py >= 0)
      ensures Valid()
    {
      hide Collides, Total, FullRows, Full, NoneFull;
    }

    /** spawn_piece (tetris.c:429-445); `roll` is the next kind, `qualifies` the score test. */
    method SpawnPiece(roll: nat, qualifies: bool)
      requires Valid() && state == Are && roll < KINDS
      modifies this`cur, this`nxt, this`prot, this`px, this`py, this`gravLeft, this`state, this`initials
      ensures Valid() && cur == old(nxt) && nxt == roll
      ensures initials == if state == Play then old(initials) else SUGGESTED
      ensures state == if Collides(well[..], cur, 0, 3, 0) then (if qualifies then Name else Over) else Play
    {
      hide Valid, Settled, Collides, GravFrames;
      ValidSettles();
      NextPiece(roll);
      var hit := CollidesAt(cur, prot, px, py);
      if hit {
        initials := SUGGESTED;
      }
      state := if !hit then Play else if qualifies then Name else Over;
      SettledIsValid();
    }

    /** The preview becomes the piece, at the top of the well (tetris.c:429-437). */
    method NextPiece(roll: nat)
      requires Shaped() && roll < KINDS
      modifies this`cur, this`nxt, this`prot, this`px, this`py, this`gravLeft
      ensures Shaped() && cur == old(nxt) && nxt == roll && prot == 0 && px == 3 && py == 0
    {
      hide GravFrames;
      cur, nxt, prot, px, py := nxt, roll, 0, 3, 0;
      gravLeft := GravFrames(level);
    }

    /** lock_piece (tetris.c:394-404): every block of the piece, each on an empty cell. */
    method LockPiece()
      requires Shaped() && !Collides(well[..], cur, prot, px, py) && py >= 0
      modifies well
      ensures var cells := Cells(cur, prot, px, py);
              && (forall i :: 0 <= i < 4 ==>
                   0 <= cells[i].x < WELL_W && 0 <= cells[i].y < WELL_H && old(well[..])[cells[i].y][cells[i].x] == 0)
              && well[..] == Stamped(old(well[..]), cells, 4, cur + 1)
    {
      hide Shape, Cells, Stamped;
      ghost var w: Well := well[..];
      var cells := Cells(cur, prot, px, py);
      forall i | 0 <= i < 4
        ensures 0 <= cells[i].x < WELL_W && 0 <= cells[i].y < WELL_H && w[cells[i].y][cells[i].x] == 0 {
        assert !Blocked(w, cells[i]);
      }
      StampNone(w, cells, cur + 1);
      var i := 0;
      while i < 4
        invariant 0 <= i <= 4 && well[..] == Stamped(w, cells, i, cur + 1)
      {
        StampNext(w, cells, i, cur + 1);
        var c := cells[i];
        well[c.y] := well[c.y][c.x := cur + 1];
        i := i + 1;
      }
    }

    /** mark_clears (tetris.c:448-465). */
    method MarkClears() returns (n: nat)
      requires Shaped()
      modifies clearRow
      ensures n == FullRows(well[..]) && forall y :: 0 <= y < WELL_H ==> (clearRow[y] <==> Full(well[y]))
    {
      n := 0;
      assert well[..0] == [];
      var y := 0;
      while y < WELL_H
        invariant 0 <= y <= WELL_H && n == FullRows(well[..y]) && forall j :: 0 <= j < y ==>
            (clearRow[j] <==> Full(well[j]))
      {
        var full := RowFull(well[y]);
        clearRow[y] := full;
        assert well[..y + 1][..y] == well[..y];
        if full {
          n := n + 1;
        }
        y := y + 1;
      }
      assert well[..WELL_H] == well[..];
    }

    static method RowFull(r: Row) returns (full: bool)
      ensures full == Full(r)
    {
      var x := 0;
      while x < WELL_W
        invariant 0 <= x <= WELL_W && forall j :: 0 <= j < x ==> r[j] != 0
      {
        if r[x] == 0 {
          return false;
        }
        x := x + 1;
      }
      full := true;
    }

    /** apply_clears (tetris.c:468-491): marked rows taken out, the rest slid down, empty rows on top. */
    method ApplyClears()
      requires Shaped() && forall y :: 0 <= y < WELL_H ==> (clearRow[y] <==> Full(well[y]))
      modifies well, clearRow
      ensures well[..] == Cleared(old(well[..])) && forall y :: 0 <= y < WELL_H ==> !clearRow[y]
    {
      hide Kept, FullRows, Full, Blank, Slid;
      ghost var w: Well := well[..];
      SlidNone(w);
      var dst, y := WELL_H - 1, WELL_H - 1;
      while y >= 0
        invariant -1 <= y <= dst < WELL_H && Slid(w, well[..], dst, y)
        invariant forall j :: 0 <= j < WELL_H ==> (clearRow[j] <==> Full(w[j]))
      {
        SlidHere(w, well[..], dst, y);
        ghost var was := well[..];
        if !clearRow[y] {
          SlideRow(dst, y);
          SlidStep(w, was, well[..], dst, y);
          dst := dst - 1;
        } else {
          SlidSkip(w, well[..], dst, y);
        }
        y := y - 1;
      }
      SlidAll(w, well[..], dst);
      BlankRows(dst);
      assert well[..] == well[..dst + 1] + well[dst + 1..];
      ResetMarks();
    }

    /** The third loop: no row is marked any more. */
    method ResetMarks()
      modifies clearRow
      ensures forall y :: 0 <= y < clearRow.Length ==> !clearRow[y]
    {
      var y := 0;
      while y < clearRow.Length
        invariant 0 <= y <= clearRow.Length && forall j :: 0 <= j < y ==> !clearRow[j]
      {
        clearRow[y] := false;
        y := y + 1;
      }
    }

    /** One kept row copied down to `dst` (tetris.c:475-479). */
    method SlideRow(dst: nat, y: nat)
      requires y <= dst < well.Length
      modifies well
      ensures well[dst..] == [old(well[y])] + old(well[dst + 1..]) && well[..y] == old(well[..y])
    {
      if dst != y {
        well[dst] := well[y];
      }
      assert well[dst + 1..] == old(well[dst + 1..]);
      assert well[dst..] == [well[dst]] + well[dst + 1..];
    }

    /** The second loop: rows 0 to `last` emptied. */
    method BlankRows(last: int)
      requires -1 <= last < well.Length
      modifies well
      ensures well[..last + 1] == Blank(last + 1) && well[last + 1..] == old(well[last + 1..])
    {
      hide Blank;
      var d := last;
      while d >= 0
        invariant -1 <= d <= last && well[last + 1..] == old(well[last + 1..]) && forall j :: d < j <= last ==>
            well[j] == Empty()
      {
        well[d] := Empty();
        d := d - 1;
      }
    }

    /** Rows down to `y` are as they were; the kept ones behind it lie behind `dst`. */
    static ghost predicate Slid(w: seq<Row>, now: seq<Row>, dst: int, y: int) {
      && |now| == |w| && -1 <= y <= dst < |w|
      && now[..y + 1] == w[..y + 1] && now[dst + 1..] == Kept(w[y + 1..]) && dst - y == FullRows(w[y + 1..])
    }

    static lemma SlidNone(w: seq<Row>)
      ensures Slid(w, w, |w| - 1, |w| - 1)
    {
      assert w[|w|..] == [];
    }

    static lemma SlidHere(w: seq<Row>, now: seq<Row>, dst: int, y: int)
      requires Slid(w, now, dst, y) && y >= 0
      ensures y < |now| == |w| && now[y] == w[y]
    {
      assert now[y] == now[..y + 1][y] && w[y] == w[..y + 1][y];
    }

    static lemma Above(w: seq<Row>, now: seq<Row>, y: nat)
      requires y < |w| && y < |now| && now[..y + 1] == w[..y + 1]
      ensures now[..y] == w[..y] && w[y..] == [w[y]] + w[y + 1..]
    {
      assert now[..y] == now[..y + 1][..y] && w[..y] == w[..y + 1][..y];
    }

    static lemma SlidSkip(w: seq<Row>, now: seq<Row>, dst: int, y: int)
      requires Slid(w, now, dst, y) && y >= 0 && Full(w[y])
      ensures Slid(w, now, dst, y - 1)
    {
      hide Kept, FullRows, Full;
      Above(w, now, y);
      KeptCons(w[y], w[y + 1..]);
    }

    static lemma SlidStep(w: seq<Row>, was: seq<Row>, now: seq<Row>, dst: int, y: int)
      requires Slid(w, was, dst, y) && y >= 0 && !Full(w[y]) && |now| == |w|
      requires now[dst..] == [was[y]] + was[dst + 1..] && now[..y] == was[..y]
      ensures Slid(w, now, dst - 1, y - 1)
    {
      hide Kept, FullRows, Full;
      SlidHere(w, was, dst, y);
      Above(w, was, y);
      KeptCons(w[y], w[y + 1..]);
    }

    static lemma SlidAll(w: seq<Row>, now: seq<Row>, dst: int)
      requires Slid(w, now, dst, -1)
      ensures now[dst + 1..] == Kept(w) && dst + 1 == FullRows(w)
    {
      assert w[0..] == w;
    }

    static lemma StampNone(w: Well, cells: seq<Cell>, v: nat)
      requires forall i :: 0 <= i < |cells| ==> 0 <= cells[i].x < WELL_W && 0 <= cells[i].y < WELL_H
      ensures Stamped(w, cells, 0, v) == w
    {
    }

    static lemma StampNext(w: Well, cells: seq<Cell>, n: nat, v: nat)
      requires n < |cells| && forall i :: 0 <= i < |cells| ==> 0 <= cells[i].x < WELL_W && 0 <= cells[i].y < WELL_H
      ensures var s, c := Stamped(w, cells, n, v), cells[n]; Stamped(w, cells, n + 1, v) == s[c.y := s[c.y][c.x := v]]
    {
    }

    /** add_lines (tetris.c:507-514): levels are passed until the goal lies ahead again. */
    method AddLines(n: nat)
      modifies this`lines, this`level, this`nextLevelAt
      ensures lines == old(lines) + n && lines < nextLevelAt
      ensures old(lines) < old(nextLevelAt) ==>
          level >= old(level) && nextLevelAt == old(nextLevelAt) + 10 * (level - old(level))
    {
      lines := lines + n;
      while lines >= nextLevelAt
        invariant lines == old(lines) + n && level >= old(level)
            && nextLevelAt == old(nextLevelAt) + 10 * (level - old(level))
        decreases lines - nextLevelAt
      {
        level := level + 1;
        nextLevelAt := nextLevelAt + 10;
      }
    }

    /** piece_landed (tetris.c:517-531): one lock fills at most four rows. */
    method PieceLanded()
      requires Valid() && state == Play
      modifies well, clearRow, this`lines, this`level, this`nextLevelAt, this`score, this`state, this`waitLeft,
          this`locked
      ensures Valid() && locked == old(locked) + 1 && state in {Are, Clear}
      ensures lines <= old(lines) + 4 && (state == Clear <==> lines > old(lines))
          && lines - old(lines) == FullRows(well[..])
      ensures score == old(score) + LineScore(FullRows(well[..]), old(level))
      ensures forall y, x :: 0 <= y < WELL_H && 0 <= x < WELL_W && old(well[y])[x] != 0 ==>
          well[y][x] == old(well[y])[x]
    {
      hide Collides, Full, NoneFull, Total, FullRows, LineScore, AreFrames;
      Land();
      var n := MarkClears();
      NoScore(level);
      locked := locked + 1;
      NoneFullCount(well[..]);
      if n > 0 {
        score := score + LineScore(n, level);
        AddLines(n);
        state := Clear;
        waitLeft := CLEAR_FRAMES;
      } else {
        state := Are;
        waitLeft := AreFrames(py);
      }
    }

    static lemma NoScore(level: nat)
      ensures LineScore(0, level) == 0
    {
    }

    /** The lock, and what it does to the count of cells and of full rows. */
    method Land()
      requires Shaped() && !Collides(well[..], cur, prot, px, py) && py >= 0 && NoneFull(well[..])
      modifies well
      ensures Total(well[..]) == Total(old(well[..])) + 4 && FullRows(well[..]) <= 4
      ensures forall y, x :: 0 <= y < WELL_H && 0 <= x < WELL_W && old(well[y])[x] != 0 ==>
          well[y][x] == old(well[y])[x]
    {
      hide Collides, Full, NoneFull, Stamped, Cells, Shape, Total, FullRows;
      ghost var w: Well := well[..];
      ghost var cells := Cells(cur, prot, px, py);
      LockPiece();
      StampedTotal(w, cells, 4, cur + 1);
      FewFull(w, cells, cur + 1);
      forall y, x | 0 <= y < WELL_H && 0 <= x < WELL_W && w[y][x] != 0
        ensures well[y][x] == w[y][x] { Untouched(w, cells, cur + 1, x, y); }
    }

    /** A filled cell is none a piece lands on. */
    static lemma Untouched(w: Well, cells: seq<Cell>, v: nat, x: nat, y: nat)
      requires |cells| == 4 && (forall i :: 0 <= i < 4 ==> 0 <= cells[i].x < WELL_W && 0 <= cells[i].y < WELL_H)
      requires (forall i :: 0 <= i < 4 ==> w[cells[i].y][cells[i].x] == 0) && x < WELL_W && y < WELL_H && w[y][x] != 0
      ensures Stamped(w, cells, 4, v)[y][x] == w[y][x]
    {
      StampedAt(w, cells, 4, v, x, y);
    }

    /** A row no block lands in is as it was; so at most four rows become full. */
    static lemma FewFull(w: Well, cells: seq<Cell>, v: nat)
      requires |cells| == 4 && (forall i :: 0 <= i < 4 ==> 0 <= cells[i].x < WELL_W && 0 <= cells[i].y < WELL_H)
          && NoneFull(w)
      ensures FullRows(Stamped(w, cells, 4, v)) <= 4
    {
      hide FullRows;
      var s := Stamped(w, cells, 4, v);
      var ys := set i | 0 <= i < 4 :: cells[i].y;
      forall y | 0 <= y < WELL_H && Full(s[y]) ensures y in ys {
        RowTouched(w, cells, v, y);
      }
      assert ys == {cells[0].y, cells[1].y, cells[2].y, cells[3].y};
      FourOf(cells[0].y, cells[1].y, cells[2].y, cells[3].y);
      CountIn(s, ys);
    }

    static lemma FourOf(a: int, b: int, c: int, d: int)
      ensures |{a, b, c, d}| <= 4
    {
      assert {a, b, c, d} == {a} + {b} + {c} + {d};
    }

    static lemma RowTouched(w: Well, cells: seq<Cell>, v: nat, y: nat)
      requires |cells| == 4 && (forall i :: 0 <= i < 4 ==> 0 <= cells[i].x < WELL_W && 0 <= cells[i].y < WELL_H)
          && NoneFull(w)
      requires y < WELL_H && Full(Stamped(w, cells, 4, v)[y])
      ensures exists i :: 0 <= i < 4 && cells[i].y == y
    {
      hide Stamped;
      assert !Full(w[y]);
      var x :| 0 <= x < WELL_W && w[y][x] == 0;
      StampedAt(w, cells, 4, v, x, y);
      assert Cell(x, y) in cells[..4];
    }

    /** As many full rows as a set that holds their numbers has members, at most. */
    static lemma {:induction false} CountIn(rows: seq<Row>, ys: set<int>)
      requires forall y :: 0 <= y < |rows| && Full(rows[y]) ==> y in ys
      ensures FullRows(rows) <= |ys|
    {
      hide Full;
      if rows != [] {
        var n := |rows| - 1;
        CountIn(rows[..n], ys - {n});
        if n !in ys { assert ys - {n} == ys; }
      }
    }

    /** gravity_tick (tetris.c:534-543): down one row, or lock. */
    method GravityTick(soft: bool)
      requires Valid() && state == Play
      modifies this, well, clearRow
      ensures Valid() && state in {Play, Are, Clear} && (state == Play ==> locked == old(locked))
          && (state != Play ==> locked == old(locked) + 1)
      ensures lines <= old(lines) + 4 && nxt == old(nxt) && running == old(running)
    {
      hide Collides, Full, NoneFull, Total, FullRows;
      var moved := TryMove(0, 1);
      if moved {
        if soft {
          score := score + 1;
        }
        return;
      }
      PieceLanded();
    }

    /** das_tick (tetris.c:546-573): a held direction repeats after 16 frames, every 6. */
    method DasTick(left: bool, right: bool)
      requires Valid() && state == Play
      modifies this`px, this`py, this`das, this`dasDir
      ensures Valid() && py == old(py) && px - 1 <= old(px) <= px + 1
      ensures left == right ==> px == old(px) && das == 0 && dasDir == 0
    {
      hide Collides, Full, NoneFull, Total, FullRows;
      var dir := 0;
      if left && !right {
        dir := -1;
      } else if right && !left {
        dir := 1;
      }
      if dir == 0 {
        das, dasDir := 0, 0;
        return;
      }
      if dasDir != dir {
        dasDir, das := dir, 0;
        var moved := TryMove(dir, 0);
        if !moved {
          das := DAS_DELAY;
        }
        return;
      }
      das := das + 1;
      if das >= DAS_DELAY && (das - DAS_DELAY) % DAS_PERIOD == 0 {
        var moved := TryMove(dir, 0);
        if !moved {
          das := DAS_DELAY;
        }
      }
    }

    /** play_frame (tetris.c:795-815). */
    method PlayFrame(left: bool, right: bool, soft: bool)
      requires Valid() && state == Play
      modifies this, well, clearRow
      ensures Valid() && locked <= old(locked) + 1 && lines <= old(lines) + 4 && nxt == old(nxt)
    {
      hide Collides, Full, NoneFull, Total, FullRows;
      DasTick(left, right);
      var delay := GravFrames(level);
      if soft && delay > 2 {
        delay := 2;
      }
      if gravLeft == 0 || gravLeft > delay {
        gravLeft := delay;
      }
      if gravLeft > 0 {
        gravLeft := gravLeft - 1;
      }
      if gravLeft == 0 {
        GravityTick(soft);
        if state == Play {
          gravLeft := delay;
        }
      }
    }

    /** wait_frame (tetris.c:818-834): when the flash is over the marked rows go. */
    method WaitFrame(roll: nat, qualifies: bool)
      requires Valid() && state in {Are, Clear} && roll < KINDS
      modifies this, well, clearRow
      ensures Valid() && locked == old(locked) && lines == old(lines)
      ensures old(waitLeft) > 0 ==> state == old(state) && well[..] == old(well[..])
      ensures old(waitLeft) == 0 && old(state) == Clear ==> state == Are && well[..] == Cleared(old(well[..]))
      ensures old(waitLeft) == 0 && old(state) == Are ==> state in {Play, Over, Name} && well[..] == old(well[..])
    {
      hide Collides, Full, NoneFull, Total, FullRows, Cleared;
      if waitLeft > 0 {
        waitLeft := waitLeft - 1;
        return;
      }
      if state == Clear {
        ClearedFacts(well[..]);
        ApplyClears();
        state := Are;
        waitLeft := AreFrames(0);
        return;
      }
      if state == Are {
        SpawnPiece(roll, qualifies);
      }
    }

    /**
     * feed_key (tetris.c:837-903): no key breaks the invariant. While a name is asked for, letters and
     * erasing edit it and Enter puts it on the table (`entered`, empty otherwise); a pause gives back
     * the phase it took.
     */
    method FeedKey(key: int) returns (entered: string)
      requires Valid()
      modifies this`running, this`state, this`pausedFrom, this`prot, this`initials
      ensures Valid() && locked == old(locked) && lines == old(lines)
      ensures running == (old(running) && !Quits(key))
      ensures Pauses(key) && old(state) !in {Over, Name} ==>
          Phase() == old(Phase()) && (state == Pause <==> old(state) != Pause)
      ensures !(Pauses(key) && old(state) !in {Over, Name}) && !(old(state) == Name && Enters(key)) ==>
          state == old(state)
      ensures old(state) != Name || Quits(key) ==> initials == old(initials) && entered == ""
      ensures old(state) == Name && !Quits(key) ==>
          if Enters(key) then state == Over && entered == old(initials).Entered() && initials == old(initials)
          else
            && state == Name && entered == ""
            && initials == if Erases(key) && old(initials).typed > 0 then old(initials).Rub()
                           else if IsLetter(key) && old(initials).typed < 3 then old(initials).Type(Capital(key))
                           else old(initials)
      ensures prot != old(prot) ==> old(state) == Play && (TurnsRight(key) || TurnsLeft(key))
    {
      hide Collides, Full, NoneFull, Total, FullRows;
      entered := "";
      if Quits(key) {
        running := false;
        return;
      }
      if state == Name {
        if Enters(key) {
          entered := initials.Entered();
          state := Over;
          return;
        }
        if Erases(key) && initials.typed > 0 {
          initials := initials.Rub();
          return;
        }
        if IsLetter(key) && initials.typed < 3 {
          initials := initials.Type(Capital(key));
        }
        return;
      }
      if Pauses(key) {
        if state == Pause {
          state := pausedFrom;
        } else if state != Over {
          pausedFrom := state;
          state := Pause;
        }
        return;
      }
      if state != Play {
        return;
      }
      if TurnsRight(key) {
        TryRot(1);
      } else if TurnsLeft(key) {
        TryRot(-1);
      }
    }

    /** One frame of the main loop (tetris.c:1053-1069), under any keys held and any rolls. */
    method Frame(left: bool, right: bool, soft: bool, roll: nat, qualifies: bool)
      requires Valid() && roll < KINDS
      modifies this, well, clearRow
      ensures Valid() && locked <= old(locked) + 1
    {
      hide Collides, Full, NoneFull, Total, FullRows, Cleared;
      match state {
        case Play => PlayFrame(left, right, soft);
        case Are => WaitFrame(roll, qualifies);
        case Clear => WaitFrame(roll, qualifies);
        case Pause =>
        case Over =>
        case Name =>
      }
    }

    /** first_goal (tetris.c:320-327). */
    static function FirstGoal(start: nat): (g: nat)
      ensures g >= 10
    {
      if start < 10 then start * 10 + 10
      else
        var cut := if start * 10 > 50 then start * 10 - 50 else 100;
        if cut > 100 then cut else 100
    }

    /** game_init (tetris.c:978-1022): an empty well and the first piece. */
    constructor (start: nat, first: nat, second: nat)
      requires first < KINDS && second < KINDS
      ensures Valid() && locked == 0 && lines == 0 && state == Play && fresh(well) && fresh(clearRow)
    {
      well := new Row[WELL_H](_ => Empty());
      clearRow := new bool[WELL_H](_ => false);
      level, lines, nextLevelAt, score := start, 0, FirstGoal(start), 0;
      das, dasDir, waitLeft, running, locked := 0, 0, 0, true, 0;
      cur, nxt, prot, px, py, gravLeft := first, second, 0, 3, 0, GravFrames(start);
      state, pausedFrom, initials := Play, Play, SUGGESTED;
      new;
      EmptyWell(well[..]);
      assert forall i :: 0 <= i < 4 ==> !Blocked(well[..], Cells(cur, 0, 3, 0)[i]);
    }

    static lemma EmptyWell(w: seq<Row>)
      requires |w| == WELL_H && forall y :: 0 <= y < WELL_H ==> w[y] == Empty()
      ensures NoneFull(w) && Total(w) == 0
    {
      assert w == Blank(WELL_H);
      TotalEmpty(WELL_H);
      assert Empty()[0] == 0;
    }
  }
}
