/** The contract devpipe/src/replay.rs states for itself: replaying into a fresh
    terminal lands on the same screen. */
module Screens {
  import opened Basics
  import opened Utf8
  import opened Text
  import opened Vt
  import opened Replay
  import opened Sequences
  import opened Pens

  // ------------------------------------------------ what a terminal can hold

  predicate IsWide(w: Widths, c: Cell) { !c.spacer && c.ch != '\0' && w(c.ch) == Two }

  /** A cell a terminal could have put there by printing: the right half of a
      wide character sits behind its left half, drawn with the same pen; anything
      else is a character that prints, or NUL, with at most one combining mark. */
  predicate CellOk(w: Widths, row: Row, i: nat)
    requires i < |row|
  {
    if row[i].spacer then
      i > 0 && IsWide(w, row[i - 1]) && PenOf(row[i]) == PenOf(row[i - 1])
    else
      && (row[i].ch == '\0' || (!IsControl(row[i].ch) && w(row[i].ch) != Zero))
      && (row[i].zw == '\0' || (!IsControl(row[i].zw) && w(row[i].zw) == Zero))
      && (IsWide(w, row[i]) ==> i + 1 < |row| && row[i + 1].spacer)
  }

  predicate RowOk(w: Widths, row: Row) { forall i :: 0 <= i < |row| ==> CellOk(w, row, i) }

  ghost predicate WellFormed(w: Widths, t: Terminal) {
    && w(' ') == One && t.Sized()
    && forall r :: 0 <= r < t.rows ==> RowOk(w, t.cells[r])
  }

  // ----------------------------------------------------- what can be observed

  /** A cell as it looks: NUL shows as a space, the text colour of an unmarked,
      undecorated blank cannot be seen, and a spacer shows only its pen. */
  function Look(c: Cell): Cell {
    if c.spacer then Cell('\0', '\0', c.fg, c.bg, c.attrs, true)
    else
      var ch := if c.ch == '\0' then ' ' else c.ch;
      if ch == ' ' && c.zw == '\0' && c.bg == Default && c.attrs == {} then Cell(' ', '\0', Default, Default, {}, false)
      else Cell(ch, c.zw, c.fg, c.bg, c.attrs, false)
  }

  ghost predicate SameScreen(a: seq<Row>, b: seq<Row>) {
    && |a| == |b|
    && (forall r :: 0 <= r < |a| ==> |a[r]| == |b[r]|)
    && forall r, c :: 0 <= r < |a| && 0 <= c < |a[r]| ==> Look(a[r][c]) == Look(b[r][c])
  }

  /** No combining mark sits on a trailing blank, where the trimming drops it. */
  ghost predicate NoLostMark(cells: seq<Row>) {
    forall r, c :: 0 <= r < |cells| && End(cells[r]) <= c < |cells[r]| ==> cells[r][c].zw == '\0'
  }

  /** Nothing the trimming drops can be seen on a screen cleared to `back`. */
  ghost predicate Faithful(cells: seq<Row>, back: Color) {
    forall r, c :: 0 <= r < |cells| && End(cells[r]) <= c < |cells[r]| ==> cells[r][c].zw == '\0' && back == Default
  }

  // ------------------------------------------------------------ one row drawn

  function Drawn(c: Cell): Cell {
    if c.spacer then Inked(PenOf(c), '\0', true)
    else Inked(PenOf(c), if c.ch == '\0' then ' ' else c.ch, false).(zw := c.zw)
  }

  function Backed(back: Color): Pen { PLAIN.(bg := back) }

  /** A row cleared to a background, with the first `n` cells of `row` printed
      over it. */
  function Shown(back: Color, row: Row, n: nat): (r: Row)
    ensures |r| == |row|
    ensures forall i :: 0 <= i < |row| ==> r[i] == if i < n then Drawn(row[i]) else BlankCell(Backed(back))
  {
    seq(|row|, i requires 0 <= i < |row| => if i < n then Drawn(row[i]) else BlankCell(Backed(back)))
  }

  /** The terminal with that row under its cursor, and the cursor after it. */
  function After(back: Color, v: Vt, row: Row, n: nat): (r: Vt)
    requires v.Valid() && |row| == v.cols && n <= v.cols
    ensures r.Valid()
  {
    v.(grid := v.grid[v.row := Shown(back, row, n)], col := if n < v.cols then n else v.cols - 1, wrap := n == v.cols)
  }

  lemma SetPen(w: Widths, v: Vt, pen: Pen)
    requires v.Valid() && v.parse == Ground
    ensures Run(w, v, SgrBytes(pen)) == v.(pen := pen)
  {
    hide Run;
    RunSequence(w, v, false, SgrCodes(pen), 'm' as int);
    SgrRoundTrip(v.pen, pen);
  }

  lemma DrawNarrow(w: Widths, back: Color, v: Vt, row: Row, i: nat)
    requires v.Valid() && |row| == v.cols && i < v.cols && v == After(back, v, row, i)
    requires !row[i].spacer && row[i].zw == '\0' && v.pen == PenOf(row[i])
    ensures PrintNarrow(v, if row[i].ch == '\0' then ' ' else row[i].ch) == After(back, v, row, i + 1)
  {
    var ch := if row[i].ch == '\0' then ' ' else row[i].ch;
    assert Inked(v.pen, ch, false) == Drawn(row[i]);
    hide Inked, Drawn, BlankCell;
    var r := PrintNarrow(v, ch);
    assert v.grid[v.row] == Shown(back, row, i);
    assert r.grid[v.row] == Shown(back, row, i)[i := Drawn(row[i])] == Shown(back, row, i + 1);
    assert r.grid == v.grid[v.row := Shown(back, row, i + 1)];
  }

  lemma DrawWide(w: Widths, back: Color, v: Vt, row: Row, i: nat)
    requires v.Valid() && |row| == v.cols && i + 1 < v.cols && v == After(back, v, row, i)
    requires !row[i].spacer && row[i].zw == '\0' && row[i].ch != '\0' && v.pen == PenOf(row[i])
    requires row[i + 1].spacer && PenOf(row[i + 1]) == PenOf(row[i])
    ensures PrintWide(v, row[i].ch) == After(back, v, row, i + 2)
  {
    var r := PrintWide(v, row[i].ch);
    assert r.grid[v.row] == Shown(back, row, i + 2);
    assert r.grid == v.grid[v.row := Shown(back, row, i + 2)];
  }

  /** The mark lands on the character just drawn, narrow or wide. */
  lemma DrawMark(back: Color, v: Vt, row: Row, i: nat, n: nat, mark: char)
    requires v.Valid() && |row| == v.cols && i < n <= v.cols && n <= i + 2
    requires !row[i].spacer && row[i].zw == '\0' && (n == i + 2 ==> row[i + 1].spacer)
    requires v == After(back, v, row, n)
    ensures Combine(v, mark) == After(back, v, row[i := row[i].(zw := mark)], n)
  {
    var marked := row[i := row[i].(zw := mark)];
    var r := Combine(v, mark);
    assert v.grid[v.row] == Shown(back, row, n);
    assert r.grid[v.row] == Shown(back, marked, n);
    assert r.grid == v.grid[v.row := Shown(back, marked, n)];
  }

  function Span(w: Widths, c: Cell): nat { if IsWide(w, c) then 2 else 1 }

  /** Drawing further replaces what was drawn before. */
  lemma AfterAfter(back: Color, v: Vt, before: Row, n: nat, pen: Pen, row: Row, m: nat)
    requires v.Valid() && |before| == |row| == v.cols && n <= v.cols && m <= v.cols
    ensures After(back, After(back, v, before, n).(pen := pen), row, m) == After(back, v, row, m).(pen := pen)
  {
    assert v.grid[v.row := Shown(back, before, n)][v.row := Shown(back, row, m)]
        == v.grid[v.row := Shown(back, row, m)];
  }

  lemma AfterFields(back: Color, v: Vt, row: Row, n: nat)
    requires v.Valid() && |row| == v.cols && n <= v.cols
    ensures var r := After(back, v, row, n); r.parse == v.parse && r.cols == v.cols && r.row == v.row && r.pen == v.pen
  {}

  lemma DrawChar(w: Widths, back: Color, v: Vt, row: Row, i: nat)
    requires v.Valid() && v.parse == Ground && |row| == v.cols && i < v.cols && v == After(back, v, row, i)
    requires w(' ') == One && RowOk(w, row) && !row[i].spacer && v.pen == PenOf(row[i])
    ensures i + Span(w, row[i]) <= v.cols
    ensures Print(w, v, if row[i].ch == '\0' then ' ' else row[i].ch)
            == After(back, v, row[i := row[i].(zw := '\0')], i + Span(w, row[i]))
  {
    hide PrintNarrow, PrintWide, Combine;
    assert CellOk(w, row, i);
    var bare := row[i := row[i].(zw := '\0')];
    assert Shown(back, bare, i) == Shown(back, row, i);
    if IsWide(w, row[i]) {
      assert CellOk(w, row, i + 1);
      DrawWide(w, back, v, bare, i);
    } else {
      DrawNarrow(w, back, v, bare, i);
    }
  }

  lemma DrawGlyph(w: Widths, back: Color, v: Vt, row: Row, i: nat)
    requires v.Valid() && v.parse == Ground && |row| == v.cols && i < v.cols && v == After(back, v, row, i)
    requires w(' ') == One && RowOk(w, row) && !row[i].spacer && v.pen == PenOf(row[i])
    ensures i + Span(w, row[i]) <= v.cols
    ensures Run(w, v, Glyph(row[i])) == After(back, v, row, i + Span(w, row[i]))
  {
    hide Run, Combine, EncodeChar, Print, After;
    assert CellOk(w, row, i);
    var ch := if row[i].ch == '\0' then ' ' else row[i].ch;
    var bare := row[i := row[i].(zw := '\0')];
    var n := i + Span(w, row[i]);
    DrawChar(w, back, v, row, i);
    RunChar(w, v, ch);
    if row[i].zw != '\0' {
      DrawMarked(w, back, v, row, i, bare, n);
      RunConcat(w, v, EncodeChar(ch), EncodeChar(row[i].zw));
    } else {
      assert bare == row;
      assert EncodeChar(ch) + [] == EncodeChar(ch);
    }
  }

  lemma DrawMarked(w: Widths, back: Color, v: Vt, row: Row, i: nat, bare: Row, n: nat)
    requires v.Valid() && v.parse == Ground && |row| == v.cols && i < v.cols && RowOk(w, row) && !row[i].spacer
    requires row[i].zw != '\0' && bare == row[i := row[i].(zw := '\0')] && n == i + Span(w, row[i]) <= v.cols
    ensures Run(w, After(back, v, bare, n), EncodeChar(row[i].zw)) == After(back, v, row, n)
  {
    hide Run, Combine, EncodeChar;
    assert CellOk(w, row, i);
    var v1 := After(back, v, bare, n);
    AfterAfter(back, v, bare, n, v1.pen, bare, n);
    AfterAfter(back, v, bare, n, v1.pen, row, n);
    RunChar(w, v1, row[i].zw);
    DrawMark(back, v1, bare, i, n, row[i].zw);
    assert bare[i := bare[i].(zw := row[i].zw)] == row;
  }

  lemma DrawInk(w: Widths, back: Color, v: Vt, row: Row, i: nat, last: Option<Pen>, every: bool)
    requires v.Valid() && v.parse == Ground && |row| == v.cols && i < v.cols && v == After(back, v, row, i)
    requires w(' ') == One && RowOk(w, row) && !row[i].spacer
    requires last.Some? ==> v.pen == last.value
    ensures i + Span(w, row[i]) <= v.cols
    ensures Run(w, v, Ink(row[i], last, every)) == After(back, v, row, i + Span(w, row[i])).(pen := PenOf(row[i]))
  {
    hide Run, Glyph, SgrBytes, After, Shown, RowOk;
    var pen := PenOf(row[i]);
    AfterPen(back, v, row, i, pen);
    if every || last != Some(pen) {
      SetPen(w, v, pen);
      RunConcat(w, v, SgrBytes(pen), Glyph(row[i]));
    } else {
      assert [] + Glyph(row[i]) == Glyph(row[i]);
    }
    DrawGlyph(w, back, v.(pen := pen), row, i);
    AfterPen(back, v, row, i + Span(w, row[i]), pen);
  }

  lemma AfterPen(back: Color, v: Vt, row: Row, n: nat, pen: Pen)
    requires v.Valid() && |row| == v.cols
    ensures n <= v.cols ==> After(back, v.(pen := pen), row, n) == After(back, v, row, n).(pen := pen)
  {
    hide Shown;
  }

  lemma RunNothing(w: Widths, v: Vt)
    requires v.Valid()
    ensures Run(w, v, []) == v
  {}

  /** Drawing the cells from `i` to `end` extends what is shown to `end`. Only
      the pen it leaves behind depends on how often a pen was written. */
  lemma {:induction false} DrawCells(w: Widths, back: Color, v: Vt, row: Row, i: nat, end: nat,
                                     last: Option<Pen>, every: bool)
    requires v.Valid() && v.parse == Ground && |row| == v.cols && i <= end <= v.cols && v == After(back, v, row, i)
    requires w(' ') == One && RowOk(w, row)
    requires i < end ==> !row[i].spacer
    requires end < |row| ==> !row[end].spacer
    requires last.Some? ==> v.pen == last.value
    ensures var r := Run(w, v, Paint(row, i, end, last, every)); r == After(back, v, row, end).(pen := r.pen)
    decreases end - i
  {
    hide Ink, PenOf, Shown, After, RowOk, Span, Run;
    if i == end {
      RunNothing(w, v);
    } else {
      var n, v1 := DrawOne(w, back, v, row, i, end, last, every);
      DrawCells(w, back, v1, row, n, end, Some(v1.pen), every);
      RunConcat(w, v, Ink(row[i], last, every), Paint(row, n, end, Some(v1.pen), every));
    }
  }

  /** One whole character: where it leaves the terminal, and what is left to paint. */
  lemma DrawOne(w: Widths, back: Color, v: Vt, row: Row, i: nat, end: nat, last: Option<Pen>, every: bool)
    returns (n: nat, v1: Vt)
    requires v.Valid() && v.parse == Ground && |row| == v.cols && i < end <= v.cols && v == After(back, v, row, i)
    requires w(' ') == One && RowOk(w, row) && !row[i].spacer
    requires end < |row| ==> !row[end].spacer
    requires last.Some? ==> v.pen == last.value
    ensures i < n <= end && (n < |row| ==> !row[n].spacer)
    ensures v1.Valid() && v1.parse == Ground && v1.cols == v.cols && v1 == Run(w, v, Ink(row[i], last, every))
    ensures v1 == After(back, v1, row, n)
    ensures After(back, v1, row, end) == After(back, v, row, end).(pen := v1.pen)
    ensures Paint(row, i, end, last, every) == Ink(row[i], last, every) + Paint(row, n, end, Some(v1.pen), every)
  {
    hide Ink, Shown, After, Run;
    assert CellOk(w, row, i);
    DrawInk(w, back, v, row, i, last, every);
    n := i + Span(w, row[i]);
    var pen := PenOf(row[i]);
    v1 := After(back, v, row, n).(pen := pen);
    if IsWide(w, row[i]) {
      assert Paint(row, i + 1, end, Some(pen), every) == Paint(row, n, end, Some(pen), every);
    }
    NextOk(w, row, n);
    AfterAfter(back, v, row, n, pen, row, n);
    AfterAfter(back, v, row, n, pen, row, end);
    AfterFields(back, v, row, n);
  }

  /** What follows a whole character is not the right half of anything. */
  lemma NextOk(w: Widths, row: Row, n: nat)
    requires RowOk(w, row) && 0 < n <= |row| && !IsWide(w, row[n - 1])
    ensures n < |row| ==> !row[n].spacer
  {
    if n < |row| { assert CellOk(w, row, n); }
  }

  // --------------------------------------------------------- the whole screen

  function Stop(row: Row, every: bool): (e: nat)
    ensures e <= |row|
  {
    if every then |row| else End(row)
  }

  /** The screen the replay paints over a cleared one. */
  function Painted(back: Color, cells: seq<Row>, every: bool): (g: seq<Row>)
    ensures |g| == |cells| && forall r :: 0 <= r < |cells| ==> g[r] == Shown(back, cells[r], Stop(cells[r], every))
  {
    seq(|cells|, r requires 0 <= r < |cells| => Shown(back, cells[r], Stop(cells[r], every)))
  }

  /** `r` is `v` repainted: another grid, a plain pen, the cursor anywhere. */
  ghost predicate Repainted(v: Vt, grid: seq<Row>, r: Vt) {
    r == v.(grid := grid, row := r.row, col := r.col, wrap := r.wrap, pen := PLAIN)
  }

  lemma GoTo(w: Widths, v: Vt, row: nat, col: nat)
    requires v.Valid() && v.parse == Ground && row < v.rows && col < v.cols
    ensures Run(w, v, Sequence(false, [row + 1, col + 1], 'H' as int)) == v.(row := row, col := col, wrap := false)
  {
    hide Run;
    RunSequence(w, v, false, [row + 1, col + 1], 'H' as int);
  }

  lemma PenOff(w: Widths, v: Vt)
    requires v.Valid() && v.parse == Ground
    ensures Run(w, v, PEN_OFF) == v.(pen := PLAIN)
  {
    hide Run;
    NamedSequences();
    RunSequence(w, v, false, [], 'm' as int);
    assert ApplySgr(v.pen, [0]) == ApplySgr(PLAIN, [0][1..]);
  }

  /** A line, taken apart: nothing, or a move, its cells and a plain pen; and it
      never stops in the middle of a character. */
  lemma LineParts(row: Row, r: nat, every: bool)
    ensures Stop(row, every) == 0 ==> Line(row, r, every) == []
    ensures Stop(row, every) > 0 ==>
              Line(row, r, every)
              == Sequence(false, [r + 1, 1], 'H' as int) + Paint(row, 0, Stop(row, every), None, every) + PEN_OFF
    ensures Stop(row, every) < |row| ==> !row[Stop(row, every)].spacer
  {
    hide Sequence, Paint;
  }

  lemma BlankIsShown(back: Color, row: Row)
    ensures Shown(back, row, 0) == BlankRow(|row|, Backed(back))
  {}

  lemma AfterRepaints(back: Color, v: Vt, row: Row, r: nat, end: nat, pen: Pen)
    requires v.Valid() && r < v.rows && |row| == v.cols && end <= v.cols
    ensures Repainted(v, v.grid[r := Shown(back, row, end)],
                      After(back, v.(row := r, col := 0, wrap := false), row, end).(pen := PLAIN))
  {}

  lemma DrawLine(w: Widths, back: Color, v: Vt, row: Row, r: nat, every: bool)
    requires v.Valid() && v.parse == Ground && v.pen == PLAIN && r < v.rows && |row| == v.cols
    requires v.grid[r] == BlankRow(v.cols, Backed(back)) && w(' ') == One && RowOk(w, row)
    ensures Repainted(v, v.grid[r := Shown(back, row, Stop(row, every))], Run(w, v, Line(row, r, every)))
  {
    hide Run, Shown, Paint, Sequence, RowOk, Stop, Line, After, BlankRow;
    LineParts(row, r, every);
    BlankIsShown(back, row);
    if Stop(row, every) == 0 {
      assert v.grid[r := Shown(back, row, 0)] == v.grid;
      RunNothing(w, v);
    } else {
      hide Repainted;
      DrawSome(w, back, v, row, r, Stop(row, every), every);
      AfterRepaints(back, v, row, r, Stop(row, every), PLAIN);
    }
  }

  lemma DrawSome(w: Widths, back: Color, v: Vt, row: Row, r: nat, end: nat, every: bool)
    requires v.Valid() && v.parse == Ground && r < v.rows && |row| == v.cols && 0 < end <= v.cols
    requires v.grid[r] == Shown(back, row, 0) && w(' ') == One && RowOk(w, row) && (end < |row| ==> !row[end].spacer)
    ensures Run(w, v, Sequence(false, [r + 1, 1], 'H' as int) + Paint(row, 0, end, None, every) + PEN_OFF)
            == After(back, v.(row := r, col := 0, wrap := false), row, end).(pen := PLAIN)
  {
    hide Run, Shown, Paint, Sequence, RowOk, After;
    var go, cells := Sequence(false, [r + 1, 1], 'H' as int), Paint(row, 0, end, None, every);
    var v1 := v.(row := r, col := 0, wrap := false);
    GoTo(w, v, r, 0);
    DrawFromLeft(w, back, v, row, r, end, every);
    AfterFields(back, v1, row, end);
    PenOff(w, Run(w, v1, cells));
    RunConcat(w, v, go, cells);
    RunConcat(w, v, go + cells, PEN_OFF);
  }

  lemma DrawFromLeft(w: Widths, back: Color, v: Vt, row: Row, r: nat, end: nat, every: bool)
    requires v.Valid() && v.parse == Ground && r < v.rows && |row| == v.cols && 0 < end <= v.cols
    requires v.grid[r] == Shown(back, row, 0) && w(' ') == One && RowOk(w, row)
    requires end < |row| ==> !row[end].spacer
    ensures var v1 := v.(row := r, col := 0, wrap := false);
            var r := Run(w, v1, Paint(row, 0, end, None, every));
            r == After(back, v1, row, end).(pen := r.pen)
  {
    hide Run, Shown, Paint;
    var v1 := v.(row := r, col := 0, wrap := false);
    assert v1 == After(back, v1, row, 0) by { assert v1.grid[r := Shown(back, row, 0)] == v1.grid; }
    assert CellOk(w, row, 0);
    DrawCells(w, back, v1, row, 0, end, None, every);
  }

  lemma Spliced(grid: seq<Row>, painted: seq<Row>, r: nat)
    requires r < |grid| == |painted|
    ensures grid[r := painted[r]][..r + 1] + painted[r + 1..] == grid[..r] + painted[r..]
  {}

  lemma LinesStep(cells: seq<Row>, r: nat, every: bool)
    requires r < |cells|
    ensures Lines(cells, r, every) == Line(cells[r], r, every) + Lines(cells, r + 1, every)
  {
    hide Line;
  }

  lemma {:induction false} DrawLines(w: Widths, back: Color, v: Vt, cells: seq<Row>, r: nat, every: bool)
    requires v.Valid() && v.parse == Ground && v.pen == PLAIN && r <= v.rows == |cells|
    requires forall i :: r <= i < v.rows ==> v.grid[i] == BlankRow(v.cols, Backed(back))
    requires w(' ') == One && forall i :: 0 <= i < |cells| ==> |cells[i]| == v.cols && RowOk(w, cells[i])
    ensures Repainted(v, v.grid[..r] + Painted(back, cells, every)[r..], Run(w, v, Lines(cells, r, every)))
    decreases |cells| - r
  {
    hide Line, Lines, Shown, Stop, RowOk, Run, Painted;
    var painted := Painted(back, cells, every);
    if r == |cells| {
      assert v.grid[..r] + painted[r..] == v.grid;
      LinesEnd(cells, every);
      RunNothing(w, v);
    } else {
      DrawLine(w, back, v, cells[r], r, every);
      var v1 := Run(w, v, Line(cells[r], r, every));
      LinesStep(cells, r, every);
      RunConcat(w, v, Line(cells[r], r, every), Lines(cells, r + 1, every));
      DrawLines(w, back, v1, cells, r + 1, every);
      Spliced(v.grid, painted, r);
    }
  }

  lemma LinesEnd(cells: seq<Row>, every: bool)
    ensures Lines(cells, |cells|, every) == []
  {}

  /** The screen cleared, in the buffer the child is drawing to. Clearing comes
      before the pen is reset, so it is done in the background of the old pen.
      Whatever sequence or character the terminal was in the middle of is gone. */
  function Opened(v: Vt, alt: bool): (r: Vt)
    requires v.Valid()
    ensures r.Valid()
  {
    (if alt then EnterAlt(v) else v)
    .(grid := BlankGrid(v.cols, v.rows, Backed(v.pen.bg)),
      row := 0, col := 0, wrap := false, pen := PLAIN, parse := Ground)
  }

  lemma RunOpening(w: Widths, v: Vt, alt: bool)
    requires v.Valid()
    ensures Run(w, v, Opening(alt)) == Opened(v, alt)
  {
    OpeningEscapes(alt);
    hide Run, Opening;
    EscapeRecovers(w, v, Opening(alt));
    RunOpeningGround(w, v.(parse := Ground), alt);
  }

  lemma OpeningEscapes(alt: bool)
    ensures Opening(alt) != [] && Opening(alt)[0] == 0x1B
  {}

  lemma RunOpeningGround(w: Widths, v: Vt, alt: bool)
    requires v.Valid() && v.parse == Ground
    ensures Run(w, v, Opening(alt)) == Opened(v, alt)
  {
    hide Run;
    NamedSequences();
    NamedModes();
    var first := if alt then ALT_ON else [];
    var v0 := if alt then EnterAlt(v) else v;
    if alt {
      RunSequence(w, v, true, [1049], 'h' as int);
    } else {
      RunNothing(w, v);
    }
    var v1 := Run(w, v0, HOME);
    RunSequence(w, v0, false, [], 'H' as int);
    var v2 := Run(w, v1, CLEAR);
    RunSequence(w, v1, false, [2], 'J' as int);
    PenOff(w, v2);
    RunConcat(w, v, first, HOME);
    RunConcat(w, v, first + HOME, CLEAR);
    RunConcat(w, v, first + HOME + CLEAR, PEN_OFF);
    assert BlankRow(v.cols, v.pen) == BlankRow(v.cols, Backed(v.pen.bg));
    assert BlankGrid(v.cols, v.rows, v.pen) == BlankGrid(v.cols, v.rows, Backed(v.pen.bg));
  }

  /** Where a replay leaves the cursor and the modes it carries. */
  function Closed(v: Vt, t: Terminal): Vt
    requires v.Valid() && t.Sized()
  {
    v.(row := t.cursor.0, col := t.cursor.1, wrap := false, visible := t.visible, paste := v.paste || t.paste)
  }

  lemma RunClosing(w: Widths, v: Vt, t: Terminal)
    requires v.Valid() && v.parse == Ground && t.Sized() && v.cols == t.cols && v.rows == t.rows
    ensures Run(w, v, Closing(t)) == Closed(v, t)
  {
    hide Run, Sequence, Place;
    NamedModes();
    var go, show := Sequence(false, [t.cursor.0 + 1, t.cursor.1 + 1], 'H' as int), if t.visible then SHOW else HIDE;
    var v1 := v.(row := t.cursor.0, col := t.cursor.1, wrap := false);
    GoTo(w, v, t.cursor.0, t.cursor.1);
    RunSequence(w, v1, true, [25], if t.visible then 'h' as int else 'l' as int);
    var v2 := v1.(visible := t.visible);
    RunConcat(w, v, go, show);
    if t.paste {
      RunSequence(w, v2, true, [2004], 'h' as int);
      RunConcat(w, v, go + show, PASTE_ON);
    } else {
      assert go + show + [] == go + show;
    }
  }

  /** What either painter leaves behind, from any terminal of the same size,
      whatever it was in the middle of. */
  lemma PaintLands(w: Widths, v: Vt, t: Terminal, every: bool)
    requires v.Valid() && WellFormed(w, t)
    requires v.cols == t.cols && v.rows == t.rows
    ensures Run(w, v, Ansi(t, every))
            == Closed(Opened(v, t.alt), t).(grid := Painted(v.pen.bg, t.cells, every))
  {
    hide Run, Opening, Closing, Lines, RowOk;
    var back := v.pen.bg;
    RunOpening(w, v, t.alt);
    var v1 := Opened(v, t.alt);
    DrawLines(w, back, v1, t.cells, 0, every);
    assert v1.grid[..0] + Painted(back, t.cells, every)[0..] == Painted(back, t.cells, every);
    var v2 := Run(w, v1, Lines(t.cells, 0, every));
    RunClosing(w, v2, t);
    RunConcat(w, v, Opening(t.alt), Lines(t.cells, 0, every));
    RunConcat(w, v, Opening(t.alt) + Lines(t.cells, 0, every), Closing(t));
  }

  // ------------------------------------------------------------- main results

  lemma NaiveLooks(back: Color, cells: seq<Row>)
    ensures SameScreen(Painted(back, cells, true), cells)
  {
    assert forall c: Cell :: Look(Drawn(c)) == Look(c);
  }

  lemma TrimmedLooks(back: Color, row: Row, c: nat)
    requires c < |row|
    ensures Look(Shown(back, row, End(row))[c]) == Look(row[c])
            <==> (c < End(row) || (row[c].zw == '\0' && back == Default))
  {
    assert Shown(back, row, End(row))[c] == if c < End(row) then Drawn(row[c]) else BlankCell(Backed(back));
    assert c >= End(row) ==> Blank(row[c]);
    hide End, Shown;
  }

  lemma ReplayLooks(back: Color, cells: seq<Row>)
    ensures SameScreen(Painted(back, cells, false), cells) <==> Faithful(cells, back)
  {
    var g := Painted(back, cells, false);
    forall r, c | 0 <= r < |cells| && 0 <= c < |cells[r]|
      ensures Look(g[r][c]) == Look(cells[r][c])
              <==> (c < End(cells[r]) || (cells[r][c].zw == '\0' && back == Default))
    {
      TrimmedLooks(back, cells[r], c);
    }
  }

  /** Replaying into any terminal of the same size, even one cut off in the middle
      of a sequence or a character, as one that fell behind may be, restores the
      cursor and its visibility. The screen comes out right exactly
      when no trailing blank carries a combining mark and, if anything at all was
      trimmed, the client's background was the default one. The buffer and the
      paste mode come out right exactly when the client was not already in a mode
      the session is not in: a replay never switches one off. */
  lemma ReplayLands(w: Widths, v: Vt, t: Terminal)
    requires v.Valid() && WellFormed(w, t)
    requires v.cols == t.cols && v.rows == t.rows
    ensures var r := Run(w, v, Ansi(t, false));
            && (r.row, r.col) == t.cursor && r.visible == t.visible && !r.wrap && r.pen == PLAIN && r.parse == Ground
            && (SameScreen(r.grid, t.cells) <==> Faithful(t.cells, v.pen.bg))
            && (r.alt == t.alt <==> (v.alt ==> t.alt)) && (r.paste == t.paste <==> (v.paste ==> t.paste))
  {
    hide Run;
    PaintLands(w, v, t, false);
    ReplayLooks(v.pen.bg, t.cells);
  }

  /** The contract as the repository's tests put it, on a fresh terminal. */
  lemma FreshReplay(w: Widths, t: Terminal)
    requires WellFormed(w, t)
    ensures var r := Run(w, Fresh(t.cols, t.rows), Ansi(t, false));
            && (r.row, r.col) == t.cursor && r.visible == t.visible && r.alt == t.alt && r.paste == t.paste
            && (SameScreen(r.grid, t.cells) <==> NoLostMark(t.cells))
  {
    hide Run;
    ReplayLands(w, Fresh(t.cols, t.rows), t);
  }

  /** Skipping repeated pens, trailing blanks, blank rows and spacers changes
      nothing that repainting every cell with its own pen would have shown, with
      the same exceptions. The naive painter itself has none. */
  lemma OptimisedAgreesWithNaive(w: Widths, v: Vt, t: Terminal)
    requires v.Valid() && WellFormed(w, t)
    requires v.cols == t.cols && v.rows == t.rows
    ensures var fast, slow := Run(w, v, Ansi(t, false)), Run(w, v, Ansi(t, true));
            && (SameScreen(fast.grid, slow.grid) <==> Faithful(t.cells, v.pen.bg))
            && SameScreen(slow.grid, t.cells)
            && fast == slow.(grid := fast.grid)
  {
    hide Run;
    PaintLands(w, v, t, false);
    PaintLands(w, v, t, true);
    ReplayLooks(v.pen.bg, t.cells);
    NaiveLooks(v.pen.bg, t.cells);
  }

  /** The failing family is not empty: one cell holding a space with an acute
      accent replays as nothing. */
  lemma LostMark(w: Widths)
    requires w(' ') == One && w('\U{0301}') == Zero
    ensures exists t: Terminal ::
              && WellFormed(w, t) && t.cols == t.rows == 1
              && !SameScreen(Run(w, Fresh(1, 1), Ansi(t, false)).grid, t.cells)
  {
    var row := [Cell(' ', '\U{0301}', Default, Default, {}, false)];
    var t := Terminal(1, 1, [row], (0, 0), true, false, false);
    assert End(row) == End(row[..0]) == 0;
    assert t.cells[0][0].zw != '\0';
    FreshReplay(w, t);
  }

  /** One blank cell, on the main screen. */
  const EMPTY := Terminal(1, 1, [[BlankCell(PLAIN)]], (0, 0), true, false, false)

  lemma EmptyIsWellFormed(w: Widths)
    requires w(' ') == One
    ensures WellFormed(w, EMPTY) && End(EMPTY.cells[0]) == 0
  {
    assert EMPTY.cells[0][..0] == [];
    assert End(EMPTY.cells[0]) == End(EMPTY.cells[0][..0]);
  }

  /** A client that had entered the alternate screen stays there when it is
      replayed a session that is not in it. */
  lemma StuckInAlternate(w: Widths)
    requires w(' ') == One
    ensures var v := Run(w, Fresh(1, 1), ALT_ON); v.alt && Run(w, v, Ansi(EMPTY, false)).alt && !EMPTY.alt
  {
    NamedModes();
    RunSequence(w, Fresh(1, 1), true, [1049], 'h' as int);
    EmptyIsWellFormed(w);
    hide Run;
    ReplayLands(w, Run(w, Fresh(1, 1), ALT_ON), EMPTY);
  }

  /** A client whose pen had a background shows a blank session in that colour. */
  lemma ClearedToColour(w: Widths, back: Color)
    requires w(' ') == One && back != Default
    ensures var v := Run(w, Fresh(1, 1), SgrBytes(Backed(back)));
            !SameScreen(Run(w, v, Ansi(EMPTY, false)).grid, EMPTY.cells)
  {
    hide Run;
    SetPen(w, Fresh(1, 1), Backed(back));
    EmptyIsWellFormed(w);
    assert EMPTY.cells[0][0] == BlankCell(PLAIN);
    ReplayLands(w, Run(w, Fresh(1, 1), SgrBytes(Backed(back))), EMPTY);
  }
}
