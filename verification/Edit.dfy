/**
 * The text editor's buffer and its map between offsets and wrapped screen positions
 * (kernel/src/edit.c:24-111, 222-322). The screen itself is not modelled.
 */
module Editors {
  const EDIT_MAX: nat := 48 * 1024

  /** A wrapped position on the screen. */
  datatype Spot = Spot(row: nat, col: nat)

  /** Strictly earlier in reading order. */
  predicate Before(a: Spot, b: Spot) {
    a.row < b.row || (a.row == b.row && a.col < b.col)
  }

  /** Where the character after `ch` goes when `ch` stands at `s` on a screen `W` wide. */
  function Next(s: Spot, ch: char, W: nat): Spot {
    if ch == '\n' || s.col + 1 >= W then Spot(s.row + 1, 0) else Spot(s.row, s.col + 1)
  }

  /** Where offset `p` of the text is shown. */
  function Vis(t: seq<char>, W: nat, p: nat): Spot
    requires p <= |t|
  {
    if p == 0 then Spot(0, 0) else Next(Vis(t, W, p - 1), t[p - 1], W)
  }

  /** A later offset is shown later, and every column is on the screen. */
  lemma {:induction false} VisIncreases(t: seq<char>, W: nat, p: nat, q: nat)
    requires W >= 1 && p <= q <= |t|
    ensures Vis(t, W, p).col < W && Vis(t, W, q).col < W
    ensures p < q ==> Before(Vis(t, W, p), Vis(t, W, q))
    decreases q
  {
    if q > 0 {
      VisIncreases(t, W, if p < q then p else p - 1, q - 1);
    }
  }

  /** No newline from offset `i` up to `j`. */
  predicate Line(t: seq<char>, i: nat, j: nat) { i <= j <= |t| && forall k :: i <= k < j ==> t[k] != '\n' }

  lemma VisStep(t: seq<char>, W: nat, p: nat)
    requires p <= |t|
    ensures Vis(t, W, p) == if p == 0 then Spot(0, 0) else Next(Vis(t, W, p - 1), t[p - 1], W)
  {
  }

  /**
   * What a spot means: the `col` characters before the offset are one stretch of a line, and
   * that stretch begins at the start of the text, after a newline or after a full row.
   */
  lemma {:induction false} VisMeans(t: seq<char>, W: nat, p: nat)
    requires W >= 1 && p <= |t|
    ensures var s := Vis(t, W, p);
      && s.col < W && s.col <= p && Line(t, p - s.col, p) && Vis(t, W, p - s.col) == Spot(s.row, 0)
      && (p == s.col || t[p - s.col - 1] == '\n' || Vis(t, W, p - s.col - 1).col == W - 1)
  {
    hide Vis, Line;
    VisStep(t, W, p);
    if p > 0 {
      VisMeans(t, W, p - 1);
      MeansStep(t, W, p, Vis(t, W, p - 1));
    }
    LineNone(t, p);
  }

  /** One character more on a line, or the start of the next one. */
  lemma MeansStep(t: seq<char>, W: nat, p: nat, b: Spot)
    requires W >= 1 && 0 < p <= |t| && b.col < W && b.col <= p - 1 && Line(t, p - 1 - b.col, p - 1)
    ensures var s := Next(b, t[p - 1], W);
            s.col < W && s.col <= p && (s.col > 0 ==> s == Spot(b.row, b.col + 1) && Line(t, p - s.col, p))
              && (s.col == 0 ==> s.row == b.row + 1 && (t[p - 1] == '\n' || b.col == W - 1))
  {
  }

  lemma LineNone(t: seq<char>, p: nat)
    requires p <= |t|
    ensures Line(t, p, p)
  {
  }

  /** What follows an offset has no say in where the offset is shown. */
  lemma {:induction false} VisOfPrefix(t: seq<char>, u: seq<char>, W: nat, p: nat)
    requires p <= |t| && p <= |u| && t[..p] == u[..p]
    ensures Vis(t, W, p) == Vis(u, W, p)
  {
    if p > 0 {
      assert t[..p][p - 1] == u[..p][p - 1] && t[..p - 1] == t[..p][..p - 1] && u[..p - 1] == u[..p][..p - 1];
      VisOfPrefix(t, u, W, p - 1);
    }
  }

  /** `p` is shown no later than `s`, and the offset after it, if there is one, later than `s`. */
  predicate Floor(t: seq<char>, W: nat, s: Spot, p: nat) {
    p <= |t| && !Before(s, Vis(t, W, p)) && (p < |t| ==> Before(s, Vis(t, W, p + 1)))
  }

  /** Such an offset is the greatest of those shown no later than `s`. */
  lemma FloorIsGreatest(t: seq<char>, W: nat, s: Spot, p: nat, q: nat)
    requires W >= 1 && Floor(t, W, s, p) && q <= |t|
    ensures q <= p <==> !Before(s, Vis(t, W, q))
  {
    if q <= p {
      VisIncreases(t, W, q, p);
    } else {
      VisIncreases(t, W, p + 1, q);
    }
  }

  /** The offset found for the spot of `p` is `p`. */
  lemma BackAgain(t: seq<char>, W: nat, p: nat, q: nat)
    requires W >= 1 && p <= |t| && Floor(t, W, Vis(t, W, p), q)
    ensures q == p
  {
    FloorIsGreatest(t, W, Vis(t, W, p), q, p);
    VisIncreases(t, W, p, q);
  }

  /** No row up to the last one is skipped: each begins at some offset. */
  lemma RowBegins(t: seq<char>, W: nat, row: nat, p: nat)
    requires W >= 1 && row <= Vis(t, W, |t|).row && Floor(t, W, Spot(row, 0), p)
    ensures Vis(t, W, p) == Spot(row, 0)
  {
    if p < |t| {
      assert Vis(t, W, p + 1) == Next(Vis(t, W, p), t[p], W);
    }
  }

  /** The text after typing `ch` at `p`, and after erasing the character before `p`. */
  function Typed(t: seq<char>, p: nat, ch: char): seq<char>
    requires p <= |t|
  {
    t[..p] + [ch] + t[p..]
  }

  function Erased(t: seq<char>, p: nat): seq<char>
    requires 0 < p <= |t|
  {
    t[..p - 1] + t[p..]
  }

  /** A run of characters typed one after another, and a run of backspaces. */
  function TypedAll(t: seq<char>, p: nat, s: seq<char>): seq<char>
    requires p <= |t|
    decreases |s|
  {
    if s == [] then t else TypedAll(Typed(t, p, s[0]), p + 1, s[1..])
  }

  function ErasedTimes(t: seq<char>, p: nat, n: nat): seq<char>
    requires n <= p <= |t|
  {
    if n == 0 then t else ErasedTimes(Erased(t, p), p - 1, n - 1)
  }

  lemma {:induction false} TypedAllIs(t: seq<char>, p: nat, s: seq<char>)
    requires p <= |t|
    ensures TypedAll(t, p, s) == t[..p] + s + t[p..]
    decreases |s|
  {
    if s != [] {
      var u := Typed(t, p, s[0]);
      TypedAllIs(u, p + 1, s[1..]);
      assert u[..p + 1] == t[..p] + [s[0]] && u[p + 1..] == t[p..];
      assert s == [s[0]] + s[1..];
    }
  }

  lemma {:induction false} ErasedTimesIs(t: seq<char>, p: nat, n: nat)
    requires n <= p <= |t|
    ensures ErasedTimes(t, p, n) == t[..p - n] + t[p..]
  {
    if n > 0 {
      var u := Erased(t, p);
      ErasedTimesIs(u, p - 1, n - 1);
      assert u[..p - n] == t[..p - n] && u[p - 1..] == t[p..];
    }
  }

  /** As many backspaces as characters were typed give the text back. */
  lemma EraseUndoesTyping(t: seq<char>, p: nat, s: seq<char>)
    requires p <= |t|
    ensures |TypedAll(t, p, s)| == |t| + |s|
    ensures ErasedTimes(TypedAll(t, p, s), p + |s|, |s|) == t
  {
    TypedAllIs(t, p, s);
    var u := TypedAll(t, p, s);
    ErasedTimesIs(u, p + |s|, |s|);
    assert u[..p] == t[..p] && u[p + |s|..] == t[p..];
  }

  /** Typing moves nothing before the cursor on the screen, and the cursor on by one place. */
  lemma TypingMoves(t: seq<char>, W: nat, p: nat, ch: char, q: nat)
    requires q <= p <= |t|
    ensures Vis(Typed(t, p, ch), W, q) == Vis(t, W, q)
    ensures Vis(Typed(t, p, ch), W, p + 1) == Next(Vis(t, W, p), ch, W)
  {
    var u := Typed(t, p, ch);
    assert u[..q] == t[..q] && u[..p] == t[..p] && u[p] == ch;
    VisOfPrefix(u, t, W, q);
    VisOfPrefix(u, t, W, p);
  }

  /** Key codes (kernel/src/kbd.h:5-12) and the two commands. */
  const KBD_UP := 0x110
  const KBD_DOWN := 0x111
  const KBD_LEFT := 0x112
  const KBD_RIGHT := 0x113
  const KBD_PGUP := 0x114
  const KBD_PGDN := 0x115
  const KBD_HOME := 0x116
  const KBD_END := 0x117
  const SAVE := 15
  const QUIT := 24

  /** The character a key types: itself when printable, a newline for Enter. */
  predicate Types(key: int, ch: char) {
    if key == 13 || key == 10 then ch == '\n' else 32 <= key <= 126 && ch == key as char
  }

  /** The keys that erase. */
  predicate Erases(key: int) {
    key == 8 || key == 0x7F
  }

  /** Where a motion key takes the cursor from offset `p`; the other keys do not move it in the text. */
  ghost predicate Lands(t: seq<char>, W: nat, key: int, p: nat, q: nat)
    requires p <= |t| && q <= |t| && W >= 1
  {
    var s := Vis(t, W, p);
    if key == KBD_LEFT then q == if p > 0 then p - 1 else 0
    else if key == KBD_RIGHT then q == if p < |t| then p + 1 else p
    else if key == KBD_UP || key == KBD_PGUP then Floor(t, W, Spot(if s.row == 0 then 0 else s.row - 1, s.col), q)
    else if key == KBD_DOWN || key == KBD_PGDN then Floor(t, W, Spot(s.row + 1, s.col), q)
    else if key == KBD_HOME then Vis(t, W, q) == Spot(s.row, 0)
    else if key == KBD_END then Vis(t, W, q).row == s.row && (q < |t| ==> Vis(t, W, q + 1).row == s.row + 1)
    else q == p
  }

  class Editor {
    const buf: array<char>
    const cap: nat
    var len: nat
    var cur: nat
    var dirty: bool
    var running: bool

    /** Room is kept for the terminating zero, and the cursor is in the text. */
    ghost predicate Valid()
      reads this
    {
      cur <= len < cap <= buf.Length
    }

    ghost function Text(): (t: seq<char>)
      reads this, buf
      requires Valid()
    {
      buf[..len]
    }

    /** A file of `n` bytes has been read into the I/O buffer; a longer one is cut. */
    constructor (iobuf: array<char>, n: nat)
      requires 4096 <= iobuf.Length && n <= iobuf.Length
      modifies iobuf
      ensures Valid() && buf == iobuf && cap == (if iobuf.Length < EDIT_MAX then iobuf.Length else EDIT_MAX)
      ensures Text() == old(iobuf[..])[..if n >= cap then cap - 1 else n] && cur == 0 && !dirty && running
    {
      buf := iobuf;
      cap := if iobuf.Length < EDIT_MAX then iobuf.Length else EDIT_MAX;
      len := n;
      cur, dirty, running := 0, false, true;
      new;
      if len >= cap {
        len := cap - 1;
      }
      buf[len] := 0 as char;
    }

    method PosToVis(pos: nat, W: nat) returns (row: nat, col: nat)
      requires Valid()
      ensures Spot(row, col) == Vis(Text(), W, if pos < len then pos else len)
    {
      row, col := 0, 0;
      var n := if pos < len then pos else len;
      var i := 0;
      while i < n
        invariant 0 <= i <= n && Spot(row, col) == Vis(Text(), W, i)
      {
        if buf[i] == '\n' {
          row, col := row + 1, 0;
        } else {
          col := col + 1;
          if col >= W {
            row, col := row + 1, 0;
          }
        }
        i := i + 1;
      }
    }

    /**
     * The greatest offset shown at or before the target. A column off the screen runs on to the
     * start of the next row when the target row is full.
     */
    method VisToPos(targetRow: nat, targetCol: nat, W: nat) returns (i: nat)
      requires Valid() && W >= 1
      ensures i <= len
      ensures targetCol < W ==> Floor(Text(), W, Spot(targetRow, targetCol), i)
      ensures targetCol >= W ==>
        || (Floor(Text(), W, Spot(targetRow, W - 1), i) && (i == len || Text()[i] == '\n'))
        || (0 < i && Vis(Text(), W, i - 1) == Spot(targetRow, W - 1) && Text()[i - 1] != '\n')
    {
      ghost var t := Text();
      var r, c := 0, 0;
      i := 0;
      while i < len
        invariant 0 <= i <= len && Spot(r, c) == Vis(t, W, i) && c < W
        invariant r < targetRow || (r == targetRow && c == 0)
      {
        if r == targetRow {
          while i < len && buf[i] != '\n' && c < targetCol
            invariant 0 <= i <= len && Spot(r, c) == Vis(t, W, i) && c < W && c <= targetCol
          {
            i := i + 1;
            c := c + 1;
            if c >= W {
              break;
            }
          }
          return;
        }
        if buf[i] == '\n' {
          r, c := r + 1, 0;
          i := i + 1;
        } else {
          c := c + 1;
          i := i + 1;
          if c >= W {
            r, c := r + 1, 0;
          }
        }
      }
    }

    /** Types `ch` at the cursor; a full buffer takes nothing. */
    method InsertChar(ch: char)
      requires Valid()
      modifies this`len, this`cur, this`dirty, buf
      ensures Valid()
      ensures old(len) + 1 < cap ==> Text() == Typed(old(Text()), old(cur), ch) && cur == old(cur) + 1 && dirty
      ensures old(len) + 1 >= cap ==> Text() == old(Text()) && cur == old(cur) && dirty == old(dirty)
    {
      if len + 1 >= cap {
        return;
      }
      Move(cur, cur + 1, len - cur);
      buf[cur] := ch;
      cur := cur + 1;
      len := len + 1;
      dirty := true;
    }

    /** Erases the character before the cursor, if there is one. */
    method Backspace()
      requires Valid()
      modifies this`len, this`cur, this`dirty, buf
      ensures Valid()
      ensures old(cur) > 0 ==> Text() == Erased(old(Text()), old(cur)) && cur == old(cur) - 1 && dirty
      ensures old(cur) == 0 ==> Text() == old(Text()) && cur == 0 && dirty == old(dirty)
    {
      if cur == 0 {
        return;
      }
      Move(cur, cur - 1, len - cur);
      cur := cur - 1;
      len := len - 1;
      dirty := true;
    }

    /** memmove within the buffer. */
    method Move(src: nat, dst: nat, n: nat)
      requires src + n <= buf.Length && dst + n <= buf.Length
      modifies buf
      ensures buf[dst..dst + n] == old(buf[src..src + n])
      ensures buf[..dst] == old(buf[..dst]) && buf[dst + n..] == old(buf[dst + n..])
    {
      forall k | 0 <= k < n {
        buf[dst + k] := buf[src + k];
      }
    }

    /**
     * Up (-1) or down (+1) by wrapped rows, keeping the column where the row is long enough.
     * Up in the first row changes nothing; down in the last goes to the end of the text.
     */
    method MoveVert(delta: int, W: nat)
      requires Valid() && W >= 1
      modifies this`cur
      ensures Valid()
      ensures var s := Vis(Text(), W, old(cur));
        Floor(Text(), W, Spot(if s.row + delta < 0 then 0 else s.row + delta, s.col), cur)
      ensures delta < 0 && Vis(Text(), W, old(cur)).row == 0 ==> cur == old(cur)
      ensures delta > 0 && Vis(Text(), W, old(cur)).row == Vis(Text(), W, len).row ==> cur == len
    {
      var r, c := PosToVis(cur, W);
      ghost var p := cur;
      VisIncreases(Text(), W, cur, len);
      if delta < 0 && r < -delta {
        r := 0;
      } else {
        r := r + delta;
      }
      cur := VisToPos(r, c, W);
      if delta < 0 && Vis(Text(), W, p).row == 0 {
        BackAgain(Text(), W, p, cur);
      }
      FloorIsGreatest(Text(), W, Spot(r, c), cur, len);
    }

    /** To the first offset of the cursor's row. */
    method Home(W: nat)
      requires Valid() && W >= 1
      modifies this`cur
      ensures Valid() && cur <= old(cur) && Vis(Text(), W, cur) == Spot(Vis(Text(), W, old(cur)).row, 0)
    {
      var r, _ := PosToVis(cur, W);
      VisIncreases(Text(), W, cur, len);
      ghost var p := cur;
      cur := VisToPos(r, 0, W);
      RowBegins(Text(), W, r, cur);
      FloorIsGreatest(Text(), W, Spot(r, 0), cur, p);
      if p < cur {
        VisIncreases(Text(), W, p, cur);
      }
    }

    /** To the last offset of the cursor's row. */
    method End(W: nat)
      requires Valid() && W >= 1
      modifies this`cur
      ensures Valid() && old(cur) <= cur && Vis(Text(), W, cur).row == Vis(Text(), W, old(cur)).row
      ensures cur < len ==> Vis(Text(), W, cur + 1).row == Vis(Text(), W, cur).row + 1
    {
      var r, _ := PosToVis(cur, W);
      ghost var p := cur;
      VisIncreases(Text(), W, cur, len);
      cur := VisToPos(r, W - 1, W);
      FloorIsGreatest(Text(), W, Spot(r, W - 1), cur, p);
      VisIncreases(Text(), W, p, cur);
      if cur < len {
        VisIncreases(Text(), W, cur, cur + 1);
      }
    }

    /**
     * One key: the text changes by typing and erasing at the cursor alone, the cursor stays in
     * it, and only a save that succeeds makes it clean. `saved` is what the file system answers.
     */
    method Feed(key: int, W: nat, saved: bool)
      requires Valid() && W >= 1
      modifies this, buf
      ensures Valid()
      ensures forall ch :: Types(key, ch) && old(len) + 1 < cap ==>
        Text() == Typed(old(Text()), old(cur), ch) && cur == old(cur) + 1
      ensures Erases(key) && old(cur) > 0 ==> Text() == Erased(old(Text()), old(cur)) && cur == old(cur) - 1
      ensures (forall ch :: Types(key, ch) ==> old(len) + 1 >= cap) && (Erases(key) ==> old(cur) == 0)
        ==> Text() == old(Text()) && Lands(Text(), W, key, old(cur), cur)
      ensures dirty == if Text() != old(Text()) then true else if key == SAVE && saved then false else old(dirty)
      ensures running == (old(running) && key != QUIT)
    {
      if key == SAVE {
        dirty := dirty && !saved;
      } else if key == QUIT {
        running := false;
      } else if key == KBD_LEFT {
        cur := if cur > 0 then cur - 1 else cur;
      } else if key == KBD_RIGHT {
        cur := if cur < len then cur + 1 else cur;
      } else if key == KBD_UP || key == KBD_PGUP {
        MoveVert(-1, W);
      } else if key == KBD_DOWN || key == KBD_PGDN {
        MoveVert(1, W);
      } else if key == KBD_HOME {
        Home(W);
      } else if key == KBD_END {
        End(W);
      } else if Erases(key) {
        Backspace();
      } else if key == 13 || key == 10 {
        assert Types(key, '\n');
        InsertChar('\n');
      } else if 32 <= key <= 126 {
        assert Types(key, key as char);
        InsertChar(key as char);
      }
    }
  }
}
