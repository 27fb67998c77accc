/** Terminals that no further bytes can tell apart, and that this is a matter of
    their state: which cells, modes and positions count, and which do not. */
module Likeness {
  import opened Basics
  import opened Utf8
  import opened Text
  import opened Vt
  import opened Screens

  /** A cell up to what a later byte can bring out: NUL is a space, and a right
      half has nothing of its own. The colour of a blank's text does count: a mark
      printed over it would show it. */
  function Plainly(c: Cell): Cell {
    if c.spacer then c.(ch := '\0', zw := '\0') else if c.ch == '\0' then c.(ch := ' ') else c
  }

  /** No mark can be printed over the last column but on what was just printed
      there, so what is there counts only as it looks. */
  ghost predicate RowsAlike(a: Row, b: Row) {
    && |a| == |b|
    && (forall c :: 0 <= c < |a| - 1 ==> Plainly(a[c]) == Plainly(b[c]))
    && (forall c :: 0 <= c < |a| ==> Look(a[c]) == Look(b[c]))
  }

  ghost predicate GridsAlike(a: seq<Row>, b: seq<Row>) {
    |a| == |b| && forall r :: 0 <= r < |a| ==> RowsAlike(a[r], b[r])
  }

  /** The cell a wrap is pending on. */
  function Edge(v: Vt): Cell
    requires v.Valid()
  {
    v.grid[v.row][v.cols - 1]
  }

  /** One state, but for cells that cannot be told apart. The main screen behind an
      alternate one counts; what is kept of it otherwise is never looked at. */
  ghost predicate Alike(a: Vt, b: Vt) {
    && a.Valid() && b.Valid() && b == a.(grid := b.grid, other := b.other, saved := b.saved)
    && GridsAlike(a.grid, b.grid) && (a.wrap ==> a.col == a.cols - 1 && Plainly(Edge(a)) == Plainly(Edge(b)))
    && (a.alt ==> a.saved == b.saved && GridsAlike(a.other, b.other))
  }

  lemma PlainlyLooks(a: Cell, b: Cell)
    requires Plainly(a) == Plainly(b)
    ensures Look(a) == Look(b) && a.spacer == b.spacer
  {}

  lemma LookSpacer(a: Cell, b: Cell)
    requires Look(a) == Look(b)
    ensures a.spacer == b.spacer && (a.spacer ==> Plainly(a) == Plainly(b))
  {}

  lemma AlikeLooks(a: seq<Row>, b: seq<Row>)
    requires GridsAlike(a, b)
    ensures SameScreen(b, a)
  {
    forall r, c | 0 <= r < |a| && 0 <= c < |b[r]| ensures Look(b[r][c]) == Look(a[r][c]) {
      assert RowsAlike(a[r], b[r]);
    }
  }

  lemma SetAlike(a: seq<Row>, b: seq<Row>, r: nat, x: Row, y: Row)
    requires GridsAlike(a, b) && r < |a| && RowsAlike(x, y)
    ensures GridsAlike(a[r := x], b[r := y])
  {
    hide RowsAlike;
  }

  lemma MendAlike(a: Row, b: Row, c: nat, n: nat, pen: Pen)
    requires RowsAlike(a, b) && 0 < n && c + n <= |a|
    ensures RowsAlike(Mend(a, c, n, pen), Mend(b, c, n, pen))
  {
    forall i | 0 <= i < |a| ensures a[i].spacer == b[i].spacer { LookSpacer(a[i], b[i]); }
    hide Plainly, Look, BlankCell;
  }

  lemma UpdateAlike(a: Row, b: Row, c: nat, x: Cell, y: Cell)
    requires RowsAlike(a, b) && c < |a| && Plainly(x) == Plainly(y)
    ensures RowsAlike(a[c := x], b[c := y])
  {
    PlainlyLooks(x, y);
    hide Plainly, Look;
  }

  lemma NextLineAlike(a: Vt, b: Vt)
    requires Alike(a, b)
    ensures Alike(NextLine(a), NextLine(b))
  {
    hide Plainly, Look;
    assert RowsAlike(BlankRow(a.cols, a.pen), BlankRow(b.cols, b.pen));
    hide RowsAlike, BlankRow;
  }

  /** Alike terminals stay alike with alike rows written, what is at the edge being
      the same if the cursor gets there. */
  lemma WriteAlike(a: Vt, b: Vt, x: Row, y: Row, width: nat)
    requires Alike(a, b) && RowsAlike(x, y) && |x| == a.cols
    requires a.col + width >= a.cols ==> Plainly(x[a.cols - 1]) == Plainly(y[a.cols - 1])
    ensures Alike(Advance(a.(grid := a.grid[a.row := x]), width), Advance(b.(grid := b.grid[b.row := y]), width))
  {
    SetAlike(a.grid, b.grid, a.row, x, y);
    hide GridsAlike, RowsAlike, Plainly;
  }

  lemma RowAlike(a: Vt, b: Vt)
    requires Alike(a, b)
    ensures (a.row, a.col, a.wrap, a.pen, a.cols) == (b.row, b.col, b.wrap, b.pen, b.cols)
    ensures RowsAlike(a.grid[a.row], b.grid[b.row])
  {}

  lemma NarrowAlike(a: Vt, b: Vt, ch: char)
    requires Alike(a, b)
    ensures Alike(PrintNarrow(a, ch), PrintNarrow(b, ch))
  {
    NextLineAlike(a, b);
    RowAlike(a, b);
    var x, y := if a.wrap then NextLine(a) else a, if b.wrap then NextLine(b) else b;
    RowAlike(x, y);
    var ink := Inked(x.pen, ch, false);
    hide Alike, RowsAlike, Mend, Inked, NextLine, Advance;
    MendAlike(x.grid[x.row], y.grid[y.row], x.col, 1, x.pen);
    var p, q := Mend(x.grid[x.row], x.col, 1, x.pen), Mend(y.grid[y.row], x.col, 1, x.pen);
    UpdateAlike(p, q, x.col, ink, ink);
    WriteAlike(x, y, p[x.col := ink], q[x.col := ink], 1);
  }

  lemma WideAlike(a: Vt, b: Vt, ch: char)
    requires Alike(a, b) && a.cols >= 2
    ensures Alike(PrintWide(a, ch), PrintWide(b, ch))
  {
    RowAlike(a, b);
    hide Alike, NextLine, PrintWide;
    if a.wrap || a.col + 1 >= a.cols {
      NextLineAlike(a, b);
      WideNext(a, ch);
      WideNext(b, ch);
      WideHere(NextLine(a), NextLine(b), ch);
    } else {
      WideHere(a, b, ch);
    }
  }

  lemma WideNext(v: Vt, ch: char)
    requires v.Valid() && v.cols >= 2 && (v.wrap || v.col + 1 >= v.cols)
    ensures PrintWide(v, ch) == PrintWide(NextLine(v), ch)
  {
    hide NextLine, Mend, Inked, Advance;
  }

  /** The row with both halves printed over it. */
  function Paired(row: Row, c: nat, pen: Pen, ch: char): (r: Row)
    requires c + 1 < |row|
    ensures |r| == |row|
  {
    Mend(row, c, 2, pen)[c := Inked(pen, ch, false)][c + 1 := Inked(pen, '\0', true)]
  }

  lemma WideIs(v: Vt, ch: char)
    requires v.Valid() && !v.wrap && v.col + 1 < v.cols
    ensures PrintWide(v, ch) == Advance(v.(grid := v.grid[v.row := Paired(v.grid[v.row], v.col, v.pen, ch)]), 2)
  {
    hide Mend, Inked, Advance;
  }

  /** With room for both halves. */
  lemma WideHere(a: Vt, b: Vt, ch: char)
    requires Alike(a, b) && !a.wrap && a.col + 1 < a.cols
    ensures Alike(PrintWide(a, ch), PrintWide(b, ch))
  {
    RowAlike(a, b);
    assert a.Valid() && b.Valid();
    hide Alike, RowsAlike, PrintWide, Paired, Advance, Plainly;
    PairAlike(a.grid[a.row], b.grid[b.row], a.col, a.pen, ch);
    WideIs(a, ch);
    WideIs(b, ch);
    WriteAlike(a, b, Paired(a.grid[a.row], a.col, a.pen, ch), Paired(b.grid[b.row], a.col, a.pen, ch), 2);
  }

  lemma PairAlike(a: Row, b: Row, c: nat, pen: Pen, ch: char)
    requires RowsAlike(a, b) && c + 1 < |a|
    ensures |a| == |b| && RowsAlike(Paired(a, c, pen, ch), Paired(b, c, pen, ch))
    ensures c + 2 >= |a| ==> Plainly(Paired(a, c, pen, ch)[|a| - 1]) == Plainly(Paired(b, c, pen, ch)[|a| - 1])
  {
    var p, q := Mend(a, c, 2, pen), Mend(b, c, 2, pen);
    var left, right := Inked(pen, ch, false), Inked(pen, '\0', true);
    assert |a| == |b|;
    hide Mend, RowsAlike, Plainly, Inked;
    MendAlike(a, b, c, 2, pen);
    UpdateAlike(p, q, c, left, left);
    UpdateAlike(p[c := left], q[c := left], c + 1, right, right);
  }

  /** Marking the same cell, of which all counts. */
  lemma MarkAlike(p: Row, q: Row, base: nat, mark: char)
    requires RowsAlike(p, q) && base < |p| == |q| && Plainly(p[base]) == Plainly(q[base])
    ensures RowsAlike(p[base := p[base].(zw := mark)], q[base := q[base].(zw := mark)])
    ensures Plainly(p[base].(zw := mark)) == Plainly(q[base].(zw := mark))
  {
    hide RowsAlike;
    UpdateAlike(p, q, base, p[base].(zw := mark), q[base].(zw := mark));
  }

  /** All of a cell counts that a mark at the cursor can get to. */
  lemma CellsCount(a: Vt, b: Vt, last: nat)
    requires Alike(a, b) && last == if a.wrap then a.col else a.col - 1
    ensures var p, q := a.grid[a.row], b.grid[b.row];
            && |p| == |q| == a.cols == b.cols && last < a.cols && p[last].spacer == q[last].spacer
            && Plainly(p[last]) == Plainly(q[last]) && (last > 0 ==> Plainly(p[last - 1]) == Plainly(q[last - 1]))
            && (a.wrap ==> last == a.cols - 1) && a.Valid() && b.Valid()
  {
    assert RowsAlike(a.grid[a.row], b.grid[b.row]);
    PlainlyLooks(a.grid[a.row][last], b.grid[b.row][last]);
    hide Plainly, Look;
  }

  lemma CombineAlike(a: Vt, b: Vt, mark: char)
    requires Alike(a, b) && (a.wrap || a.col != 0)
    ensures Alike(Combine(a, mark), Combine(b, mark))
  {
    var last := if a.wrap then a.col else a.col - 1;
    RowAlike(a, b);
    CellsCount(a, b, last);
    var p, q := a.grid[a.row], b.grid[b.row];
    var base := if p[last].spacer && last > 0 then last - 1 else last;
    assert (b.wrap, b.col) == (a.wrap, a.col);
    hide Plainly, RowsAlike, Alike, Look;
    CombineIs(a, mark, base);
    CombineIs(b, mark, base);
    hide Combine;
    MarkAlike(p, q, base, mark);
    RewriteAlike(a, b, p[base := p[base].(zw := mark)], q[base := q[base].(zw := mark)]);
  }

  lemma CombineIs(v: Vt, mark: char, base: nat)
    requires v.Valid() && (v.wrap || v.col != 0)
    requires var last := if v.wrap then v.col else v.col - 1;
             base == if v.grid[v.row][last].spacer && last > 0 then last - 1 else last
    ensures var p := v.grid[v.row]; Combine(v, mark) == v.(grid := v.grid[v.row := p[base := p[base].(zw := mark)]])
  {}

  /** Rewriting the cursor's row, without moving. */
  lemma RewriteAlike(a: Vt, b: Vt, x: Row, y: Row)
    requires Alike(a, b) && RowsAlike(x, y) && |x| == a.cols
    requires a.wrap ==> Plainly(x[a.cols - 1]) == Plainly(y[a.cols - 1])
    ensures Alike(a.(grid := a.grid[a.row := x]), b.(grid := b.grid[b.row := y]))
  {
    SetAlike(a.grid, b.grid, a.row, x, y);
    hide GridsAlike, RowsAlike, Plainly;
  }

  lemma PrintAlike(w: Widths, a: Vt, b: Vt, ch: char)
    requires Alike(a, b)
    ensures Alike(Print(w, a, ch), Print(w, b, ch))
  {
    if !IsControl(ch) {
      hide GridsAlike;
      match w(ch)
      case Zero => if a.wrap || a.col != 0 { CombineAlike(a, b, ch); }
      case One => NarrowAlike(a, b, ch);
      case Two => if a.cols >= 2 { WideAlike(a, b, ch); }
    }
  }

  lemma SelfAlike(g: seq<Row>)
    ensures GridsAlike(g, g)
  {}

  lemma GridsTransitive(a: seq<Row>, b: seq<Row>, c: seq<Row>)
    requires GridsAlike(a, b) && GridsAlike(a, c)
    ensures GridsAlike(b, c)
  {
    forall r | 0 <= r < |b| ensures RowsAlike(b[r], c[r]) {
      assert RowsAlike(a[r], b[r]) && RowsAlike(a[r], c[r]);
      hide Plainly, Look;
    }
  }

  lemma AlikeTransitive(a: Vt, b: Vt, c: Vt)
    requires Alike(a, b) && Alike(a, c)
    ensures Alike(b, c)
  {
    GridsTransitive(a.grid, b.grid, c.grid);
    if a.alt { GridsTransitive(a.other, b.other, c.other); }
    hide GridsAlike, Plainly;
  }

  lemma ModeAlike(a: Vt, b: Vt, mode: nat, on: bool)
    requires Alike(a, b)
    ensures Alike(SetMode(a, mode, on), SetMode(b, mode, on))
  {
    SelfAlike(BlankGrid(a.cols, a.rows, a.pen));
    hide GridsAlike, BlankGrid;
  }

  lemma DispatchAlike(a: Vt, b: Vt, private: bool, params: seq<nat>, final: byte)
    requires Alike(a, b) && params != []
    ensures Alike(Dispatch(a, private, params, final), Dispatch(b, private, params, final))
  {
    if private {
      hide Alike, SetMode;
      ModeAlike(a, b, params[0], true);
      ModeAlike(a, b, params[0], false);
    } else {
      hide CursorTo, EraseAll, ApplySgr, GridsAlike;
      EraseAlike(a, b);
      CursorAlike(a, b, params);
      PenAlike(a, b, params);
    }
  }

  lemma EraseAlike(a: Vt, b: Vt)
    requires Alike(a, b)
    ensures Alike(EraseAll(a), EraseAll(b))
  {
    hide GridsAlike, BlankGrid;
    SelfAlike(BlankGrid(a.cols, a.rows, a.pen));
  }

  lemma CursorAlike(a: Vt, b: Vt, params: seq<nat>)
    requires Alike(a, b) && params != []
    ensures Alike(CursorTo(a, params), CursorTo(b, params))
  {
    hide GridsAlike, Place;
  }

  lemma PenAlike(a: Vt, b: Vt, params: seq<nat>)
    requires Alike(a, b)
    ensures Alike(a.(pen := ApplySgr(a.pen, params)), b.(pen := ApplySgr(b.pen, params)))
  {
    hide GridsAlike, ApplySgr;
  }

  lemma ParseAlike(a: Vt, b: Vt, parse: Parse)
    requires Alike(a, b)
    ensures a.parse == b.parse && Alike(a.(parse := parse), b.(parse := parse))
  {
    hide GridsAlike;
  }

  lemma GroundAlike(w: Widths, a: Vt, b: Vt, x: byte)
    requires Alike(a, b)
    ensures Alike(StepGround(w, a, x), StepGround(w, b, x))
  {
    ParseAlike(a, b, Ground);
    ParseAlike(a, b, StepGround(w, a, x).parse);
    hide Alike, Print;
    if x < 0x80 { PrintAlike(w, a.(parse := Ground), b.(parse := Ground), x as char); }
  }

  lemma MultibyteAlike(w: Widths, a: Vt, b: Vt, x: byte)
    requires Alike(a, b) && a.parse.Multibyte?
    ensures Alike(StepMultibyte(w, a, x), StepMultibyte(w, b, x))
  {
    var n := a.parse.acc * 64 + (x - 0x80);
    GroundAlike(w, a, b, x);
    ParseAlike(a, b, Ground);
    ParseAlike(a, b, StepMultibyte(w, a, x).parse);
    hide Alike, Print, StepGround;
    if IsScalar(n) { PrintAlike(w, a.(parse := Ground), b.(parse := Ground), n as char); }
  }

  lemma CsiAlike(w: Widths, a: Vt, b: Vt, x: byte)
    requires Alike(a, b) && a.parse.Csi?
    ensures Alike(StepCsi(w, a, x), StepCsi(w, b, x))
  {
    var Csi(private, done, cur) := a.parse;
    ParseAlike(a, b, Ground);
    assert a.Valid() && b.Valid();
    hide Alike, Dispatch, StepGround;
    if '0' as int <= x <= '9' as int {
      ParseAlike(a, b, Csi(private, done, cur * 10 + (x - '0' as int)));
    } else if x == ';' as int {
      ParseAlike(a, b, Csi(private, done + [cur], 0));
    } else if x == '?' as int {
      ParseAlike(a, b, Csi(true, done, cur));
    } else if 0x40 <= x < 0x7F {
      DispatchAlike(a.(parse := Ground), b.(parse := Ground), private, done + [cur], x);
    } else {
      GroundAlike(w, a, b, x);
    }
  }

  lemma StepAlike(w: Widths, a: Vt, b: Vt, x: byte)
    requires Alike(a, b)
    ensures Alike(Step(w, a, x), Step(w, b, x))
  {
    assert a.Valid() && b.Valid();
    ParseAlike(a, b, Ground);
    ParseAlike(a, b, Csi(false, [], 0));
    hide Alike, StepGround, StepMultibyte, StepCsi;
    match a.parse
    case Ground => GroundAlike(w, a, b, x);
    case Multibyte(_, _, _) => MultibyteAlike(w, a, b, x);
    case Escape =>
    case Csi(_, _, _) => CsiAlike(w, a, b, x);
  }

  lemma {:induction false} RunAlike(w: Widths, a: Vt, b: Vt, bytes: seq<byte>)
    requires Alike(a, b)
    ensures Alike(Run(w, a, bytes), Run(w, b, bytes))
    decreases |bytes|
  {
    hide GridsAlike, Step;
    if bytes != [] {
      StepAlike(w, a, b, bytes[0]);
      RunAlike(w, Step(w, a, bytes[0]), Step(w, b, bytes[0]), bytes[1..]);
    }
  }
}
