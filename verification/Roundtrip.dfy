/** The round trip the tests of devpipe/src/replay.rs make, from any input at all:
    feed a terminal, replay it into a fresh one, and compare.

    What makes it hold of every input is that a terminal, whatever bytes it is
    fed, never leaves half a wide character or a stray mark on its screen. */
module Roundtrip {
  import opened Basics
  import opened Utf8
  import opened Text
  import opened Vt
  import opened Replay
  import opened Screens

  ghost predicate GridOk(w: Widths, grid: seq<Row>) { forall r :: 0 <= r < |grid| ==> RowOk(w, grid[r]) }

  /** What every terminal keeps of both its screens. */
  ghost predicate Kept(w: Widths, v: Vt) {
    && w(' ') == One && v.Valid() && GridOk(w, v.grid) && GridOk(w, v.other)
    && (v.wrap ==> v.col == v.cols - 1)
  }

  lemma BlankOk(w: Widths, cols: nat, rows: nat, pen: Pen)
    requires w(' ') == One
    ensures RowOk(w, BlankRow(cols, pen)) && GridOk(w, BlankGrid(cols, rows, pen))
  {}

  lemma SetRowOk(w: Widths, grid: seq<Row>, r: nat, row: Row)
    requires GridOk(w, grid) && r < |grid| && RowOk(w, row)
    ensures GridOk(w, grid[r := row])
  {
    hide RowOk;
  }

  /** A cell is judged by itself and its neighbours alone. */
  lemma SameCellOk(w: Widths, row: Row, r: Row, i: nat)
    requires i < |row| == |r| && CellOk(w, row, i) && r[i] == row[i]
    requires i > 0 ==> r[i - 1] == row[i - 1]
    requires i + 1 < |row| ==> r[i + 1] == row[i + 1]
    ensures CellOk(w, r, i)
  {}

  /** `n` cells of a row printed over from column `c`: cells further than one
      column away keep themselves and their neighbours, and what stands on either
      side is whole. */
  lemma MendedOk(w: Widths, row: Row, c: nat, n: nat, pen: Pen, r: Row, i: nat)
    requires w(' ') == One && RowOk(w, row) && 0 < n && c + n <= |row| == |r| && i < |row| && !(c <= i < c + n)
    requires forall k :: 0 <= k < |row| && !(c <= k < c + n) ==> r[k] == Mend(row, c, n, pen)[k]
    ensures CellOk(w, r, i)
  {
    assert CellOk(w, row, i);
    var m := Mend(row, c, n, pen);
    if i + 1 == c {
      assert CellOk(w, row, i + 1);
      assert r[i] == m[i];
      if i > 0 { assert r[i - 1] == m[i - 1] == row[i - 1]; }
    } else if i == c + n {
      assert r[i] == m[i];
      if i + 1 < |row| { assert r[i + 1] == m[i + 1] == row[i + 1]; }
    } else if i + 2 == c {
      assert r[i] == m[i] == row[i];
      assert CellOk(w, row, i + 1) && r[i + 1] == m[i + 1] && (i > 0 ==> r[i - 1] == m[i - 1] == row[i - 1]);
      assert CellOk(w, row, c);
    } else if i == c + n + 1 {
      assert r[i] == m[i] == row[i];
      assert CellOk(w, row, i - 1) && r[i - 1] == m[i - 1] && (i + 1 < |row| ==> r[i + 1] == m[i + 1] == row[i + 1]);
    } else {
      assert r[i] == m[i] == row[i];
      assert i > 0 ==> r[i - 1] == m[i - 1] == row[i - 1];
      assert i + 1 < |row| ==> r[i + 1] == m[i + 1] == row[i + 1];
      SameCellOk(w, row, r, i);
    }
  }

  /** Printing one column wide, over anything. */
  lemma NarrowOk(w: Widths, row: Row, c: nat, pen: Pen, ch: char)
    requires w(' ') == One && RowOk(w, row) && c < |row| && !IsControl(ch) && w(ch) == One
    ensures RowOk(w, Mend(row, c, 1, pen)[c := Inked(pen, ch, false)])
  {
    var r := Mend(row, c, 1, pen)[c := Inked(pen, ch, false)];
    forall i | 0 <= i < |r| ensures CellOk(w, r, i) {
      if i != c { MendedOk(w, row, c, 1, pen, r, i); }
    }
  }

  lemma WideOk(w: Widths, row: Row, c: nat, pen: Pen, ch: char)
    requires w(' ') == One && RowOk(w, row) && c + 1 < |row| && !IsControl(ch) && w(ch) == Two
    ensures RowOk(w, Mend(row, c, 2, pen)[c := Inked(pen, ch, false)][c + 1 := Inked(pen, '\0', true)])
  {
    var r := Mend(row, c, 2, pen)[c := Inked(pen, ch, false)][c + 1 := Inked(pen, '\0', true)];
    assert ch != '\0';
    forall i | 0 <= i < |r| ensures CellOk(w, r, i) {
      if i != c && i != c + 1 { MendedOk(w, row, c, 2, pen, r, i); }
    }
  }

  /** A mark on a character, wide or narrow, leaves it what it was. */
  lemma MarkOk(w: Widths, row: Row, c: nat, mark: char)
    requires RowOk(w, row) && c < |row| && !row[c].spacer && !IsControl(mark) && w(mark) == Zero
    ensures RowOk(w, row[c := row[c].(zw := mark)])
  {
    var r := row[c := row[c].(zw := mark)];
    forall i | 0 <= i < |r| ensures CellOk(w, r, i) {
      assert CellOk(w, row, i);
    }
  }

  lemma NextLineKeeps(w: Widths, v: Vt)
    requires Kept(w, v)
    ensures Kept(w, NextLine(v))
  {
    hide RowOk;
    BlankOk(w, v.cols, v.rows, v.pen);
  }

  lemma PrintKeeps(w: Widths, v: Vt, ch: char)
    requires Kept(w, v)
    ensures Kept(w, Print(w, v, ch))
  {
    hide RowOk, Mend, Inked, CellOk;
    if !IsControl(ch) {
      match w(ch)
      case Zero =>
        if v.wrap || v.col != 0 { CombineKeeps(w, v, ch); }
      case One =>
        NextLineKeeps(w, v);
        var at := if v.wrap then NextLine(v) else v;
        var row := at.grid[at.row];
        NarrowOk(w, row, at.col, at.pen, ch);
        SetRowOk(w, at.grid, at.row, Mend(row, at.col, 1, at.pen)[at.col := Inked(at.pen, ch, false)]);
      case Two =>
        if v.cols >= 2 { WideKeeps(w, v, ch); }
    }
  }

  lemma WideKeeps(w: Widths, v: Vt, ch: char)
    requires Kept(w, v) && !IsControl(ch) && w(ch) == Two && v.cols >= 2
    ensures Kept(w, PrintWide(v, ch))
  {
    hide RowOk, Mend, Inked;
    NextLineKeeps(w, v);
    var at := if v.wrap || v.col + 1 >= v.cols then NextLine(v) else v;
    var row := at.grid[at.row];
    WideOk(w, row, at.col, at.pen, ch);
    SetRowOk(w, at.grid, at.row,
             Mend(row, at.col, 2, at.pen)[at.col := Inked(at.pen, ch, false)][at.col + 1 := Inked(at.pen, '\0', true)]);
  }

  lemma CombineKeeps(w: Widths, v: Vt, mark: char)
    requires Kept(w, v) && !IsControl(mark) && w(mark) == Zero && (v.wrap || v.col != 0)
    ensures Kept(w, Combine(v, mark))
  {
    var last := if v.wrap then v.col else v.col - 1;
    var row := v.grid[v.row];
    assert CellOk(w, row, last);
    var base := if row[last].spacer && last > 0 then last - 1 else last;
    hide RowOk, CellOk;
    MarkOk(w, row, base, mark);
    SetRowOk(w, v.grid, v.row, row[base := row[base].(zw := mark)]);
  }

  lemma DispatchKeeps(w: Widths, v: Vt, private: bool, params: seq<nat>, final: byte)
    requires Kept(w, v) && params != []
    ensures Kept(w, Dispatch(v, private, params, final))
  {
    hide GridOk, ApplySgr, BlankGrid;
    BlankOk(w, v.cols, v.rows, v.pen);
  }

  lemma GroundKeeps(w: Widths, v: Vt, b: byte)
    requires Kept(w, v)
    ensures Kept(w, StepGround(w, v, b))
  {
    hide GridOk, Print;
    if b < 0x80 { PrintKeeps(w, v.(parse := Ground), b as char); }
  }

  lemma MultibyteKeeps(w: Widths, v: Vt, b: byte)
    requires Kept(w, v) && v.parse.Multibyte?
    ensures Kept(w, StepMultibyte(w, v, b))
  {
    hide GridOk, Print, StepGround;
    var n := v.parse.acc * 64 + (b - 0x80);
    GroundKeeps(w, v, b);
    if IsScalar(n) { PrintKeeps(w, v.(parse := Ground), n as char); }
  }

  lemma CsiKeeps(w: Widths, v: Vt, b: byte)
    requires Kept(w, v) && v.parse.Csi?
    ensures Kept(w, StepCsi(w, v, b))
  {
    hide GridOk, Dispatch, StepGround;
    GroundKeeps(w, v, b);
    DispatchKeeps(w, v.(parse := Ground), v.parse.private, v.parse.done + [v.parse.cur], b);
  }

  lemma StepKeeps(w: Widths, v: Vt, b: byte)
    requires Kept(w, v)
    ensures Kept(w, Step(w, v, b))
  {
    hide GridOk, StepGround, StepMultibyte, StepCsi;
    match v.parse
    case Ground => GroundKeeps(w, v, b);
    case Multibyte(_, _, _) => MultibyteKeeps(w, v, b);
    case Escape =>
    case Csi(_, _, _) => CsiKeeps(w, v, b);
  }

  lemma {:induction false} RunKeeps(w: Widths, v: Vt, bytes: seq<byte>)
    requires Kept(w, v)
    ensures Kept(w, Run(w, v, bytes))
    decreases |bytes|
  {
    hide Step, GridOk;
    if bytes != [] {
      StepKeeps(w, v, bytes[0]);
      RunKeeps(w, Step(w, v, bytes[0]), bytes[1..]);
    }
  }

  /** What a daemon's own terminal answers. */
  function Answered(v: Vt): (t: Terminal)
    requires v.Valid()
    ensures t.Sized()
  {
    Terminal(v.cols, v.rows, v.grid, (v.row, v.col), v.visible, v.alt, v.paste)
  }

  lemma FreshKept(w: Widths, cols: nat, rows: nat)
    requires w(' ') == One && 0 < cols && 0 < rows
    ensures Kept(w, Fresh(cols, rows))
  {
    BlankOk(w, cols, rows, PLAIN);
  }

  /** For every input: the replay of the terminal it was fed to lands, in a fresh
      terminal, on the same cursor, modes and buffer; and on the same screen
      exactly when no trailing blank was left with a combining mark. */
  lemma AnyInputRoundTrips(w: Widths, cols: nat, rows: nat, input: seq<byte>)
    requires w(' ') == One && 0 < cols && 0 < rows
    ensures var a := Run(w, Fresh(cols, rows), input);
            var b := Run(w, Fresh(cols, rows), Ansi(Answered(a), false));
            && (b.row, b.col) == (a.row, a.col) && b.visible == a.visible && b.alt == a.alt && b.paste == a.paste
            && (SameScreen(b.grid, a.grid) <==> NoLostMark(a.grid))
  {
    FreshKept(w, cols, rows);
    RunKeeps(w, Fresh(cols, rows), input);
    hide Run;
    FreshReplay(w, Answered(Run(w, Fresh(cols, rows), input)));
  }
}
