/** What terminals show under further bytes, and the bytes that tell two of them
    apart: being alike is exactly not being told apart. */
module Observed {
  import opened Basics
  import opened Utf8
  import opened Text
  import opened Vt
  import opened Replay
  import opened Sequences
  import opened Screens
  import opened Likeness

  // ------------------------------------------------------ what can be observed

  /** All that a terminal shows. */
  ghost predicate Shows(a: Vt, b: Vt) {
    && SameScreen(b.grid, a.grid)
    && (b.row, b.col, b.visible, b.alt, b.paste) == (a.row, a.col, a.visible, a.alt, a.paste)
  }

  /** No bytes make the one show what the other does not. */
  ghost predicate Indistinct(w: Widths, a: Vt, b: Vt)
    requires a.Valid() && b.Valid()
  {
    forall bytes: seq<byte> :: Shows(Run(w, a, bytes), Run(w, b, bytes))
  }

  /** A character set that has two letters and some mark: `'x'` and `'y'`, and one
      that combines. */
  predicate HasLetters(w: Widths, mark: char) {
    w('x') == One && w('y') == One && w(mark) == Zero && !IsControl(mark)
  }

  /** What is asked of a terminal besides its shape: a wrap is only ever pending at
      the edge. */
  predicate Edged(v: Vt) { v.Valid() && (v.wrap ==> v.col == v.cols - 1) }

  lemma {:induction false} RunEdged(w: Widths, v: Vt, bytes: seq<byte>)
    requires Edged(v)
    ensures Edged(Run(w, v, bytes))
    decreases |bytes|
  {
    hide Step;
    if bytes != [] {
      StepEdged(w, v, bytes[0]);
      RunEdged(w, Step(w, v, bytes[0]), bytes[1..]);
    }
  }

  lemma StepEdged(w: Widths, v: Vt, b: byte)
    requires Edged(v)
    ensures Edged(Step(w, v, b))
  {
    hide Print, Dispatch;
    var ground := v.(parse := Ground);
    forall ch: char ensures Edged(Print(w, ground, ch)) { PrintEdged(w, ground, ch); }
    forall private, params: seq<nat>, final: byte | params != []
      ensures Edged(Dispatch(ground, private, params, final))
    {
      DispatchEdged(ground, private, params, final);
    }
  }

  lemma PrintEdged(w: Widths, v: Vt, ch: char)
    requires Edged(v)
    ensures Edged(Print(w, v, ch))
  {
    hide Mend, NextLine, Inked, Put;
  }

  lemma DispatchEdged(v: Vt, private: bool, params: seq<nat>, final: byte)
    requires Edged(v) && params != []
    ensures Edged(Dispatch(v, private, params, final))
  {
    hide ApplySgr, Place;
  }

  lemma IndistinctAfter(w: Widths, a: Vt, b: Vt, bytes: seq<byte>)
    requires a.Valid() && b.Valid() && Indistinct(w, a, b)
    ensures Indistinct(w, Run(w, a, bytes), Run(w, b, bytes))
  {
    hide Shows, Run;
    forall more: seq<byte> ensures Shows(Run(w, Run(w, a, bytes), more), Run(w, Run(w, b, bytes), more)) {
      RunConcat(w, a, bytes, more);
      RunConcat(w, b, bytes, more);
    }
  }

  lemma ShowsNow(w: Widths, a: Vt, b: Vt)
    requires a.Valid() && b.Valid() && Indistinct(w, a, b)
    ensures Shows(a, b)
  {
    assert Run(w, a, []) == a && Run(w, b, []) == b;
  }

  /** Sending the cursor somewhere, and then one character. */
  function AtThen(row: nat, col: nat, ch: char): seq<byte> {
    Sequence(false, [row + 1, col + 1], 'H' as int) + EncodeChar(ch)
  }

  lemma Escapes(private: bool, params: seq<nat>, final: byte)
    ensures Sequence(private, params, final) != [] && Sequence(private, params, final)[0] == 0x1B
  {}

  /** A whole sequence does, in any terminal, what it does between sequences. */
  lemma RunEscaped(w: Widths, v: Vt, private: bool, params: seq<nat>, final: byte)
    requires v.Valid() && 0x40 <= final < 0x7F
    ensures Run(w, v, Sequence(private, params, final)) == Dispatch(v.(parse := Ground), private, Given(params), final)
  {
    hide Run, Sequence, Dispatch;
    Escapes(private, params, final);
    EscapeRecovers(w, v, Sequence(private, params, final));
    RunSequence(w, v.(parse := Ground), private, params, final);
  }

  lemma RunJump(w: Widths, v: Vt, row: nat, col: nat)
    requires v.Valid() && row < v.rows && col < v.cols
    ensures Run(w, v, Sequence(false, [row + 1, col + 1], 'H' as int))
            == v.(parse := Ground, row := row, col := col, wrap := false)
  {
    hide Run, Sequence;
    RunEscaped(w, v, false, [row + 1, col + 1], 'H' as int);
  }

  lemma RunAtThen(w: Widths, v: Vt, row: nat, col: nat, ch: char)
    requires v.Valid() && row < v.rows && col < v.cols && !IsControl(ch)
    ensures Run(w, v, AtThen(row, col, ch))
            == Print(w, v.(parse := Ground, row := row, col := col, wrap := false), ch)
  {
    hide Run, Print, EncodeChar, Sequence;
    RunJump(w, v, row, col);
    var at := v.(parse := Ground, row := row, col := col, wrap := false);
    RunThen(w, v, Sequence(false, [row + 1, col + 1], 'H' as int), at, ch);
  }

  lemma RunThen(w: Widths, v: Vt, bytes: seq<byte>, at: Vt, ch: char)
    requires v.Valid() && Run(w, v, bytes) == at && at.parse == Ground && !IsControl(ch)
    ensures Run(w, v, bytes + EncodeChar(ch)) == Print(w, at, ch)
  {
    hide Run, Print, EncodeChar;
    RunConcat(w, v, bytes, EncodeChar(ch));
    RunChar(w, at, ch);
  }

  lemma ApartAt(a: seq<Row>, b: seq<Row>, r: nat, c: nat)
    requires |a| == |b| && r < |a| && |a[r]| == |b[r]| && c < |a[r]| && Look(a[r][c]) != Look(b[r][c])
    ensures !SameScreen(a, b)
  {
    hide Look;
  }

  /** A letter printed at home shows the pen. */
  lemma PenShows(w: Widths, a: Vt, b: Vt, bytes: seq<byte>)
    requires a.Valid() && b.Valid() && (a.cols, a.rows) == (b.cols, b.rows) && w('x') == One && a.pen != b.pen
    requires bytes == AtThen(0, 0, 'x')
    ensures !SameScreen(Run(w, b, bytes).grid, Run(w, a, bytes).grid)
  {
    hide Run, AtThen;
    RunAtThen(w, a, 0, 0, 'x');
    RunAtThen(w, b, 0, 0, 'x');
    NarrowAt(a.(parse := Ground, row := 0, col := 0, wrap := false), 'x');
    NarrowAt(b.(parse := Ground, row := 0, col := 0, wrap := false), 'x');
    assert Look(Inked(a.pen, 'x', false)) != Look(Inked(b.pen, 'x', false));
    hide Look, PrintNarrow;
    ApartAt(Run(w, b, bytes).grid, Run(w, a, bytes).grid, 0, 0);
  }

  lemma NarrowAt(v: Vt, ch: char)
    requires v.Valid() && !v.wrap
    ensures PrintNarrow(v, ch).grid[v.row][v.col] == Inked(v.pen, ch, false)
  {}

  lemma LetterLooks(c: Cell, pen: Pen, ch: char)
    requires c.ch != ch && ch in {'x', 'y'}
    ensures Look(c) != Look(Inked(pen, ch, false))
  {}

  /** The letter that shows a cell changed. */
  function Other(c: Cell): (ch: char)
    ensures ch in {'x', 'y'} && c.ch != ch
  {
    if c.ch == 'x' then 'y' else 'x'
  }

  lemma RunLetter(w: Widths, v: Vt, ch: char)
    requires v.Valid() && v.parse == Ground && ch in {'x', 'y'} && w(ch) == One
    ensures Run(w, v, [ch as int]) == PrintNarrow(v, ch)
  {
    hide Run, Step, PrintNarrow;
    RunOne(w, v, ch as int);
    StepAscii(w, v, ch);
  }

  /** Printing with a wrap pending leaves the edge alone, or scrolls it away. */
  lemma WrapLeaves(v: Vt, ch: char)
    requires Edged(v) && v.wrap && v.cols > 1
    ensures var r := PrintNarrow(v, ch).grid[v.row][v.col]; r == v.grid[v.row][v.col] || r == BlankCell(v.pen)
  {}

  /** A letter shows a pending wrap, by where it lands. */
  lemma WrapShows(w: Widths, a: Vt, b: Vt, ch: char)
    requires Edged(a) && Edged(b) && (a.cols, a.rows, a.row, a.col) == (b.cols, b.rows, b.row, b.col)
    requires a.parse == b.parse == Ground && a.wrap && !b.wrap && w(ch) == One && ch == Other(Edge(a)) && a.cols > 1
    ensures !SameScreen(Run(w, b, [ch as int]).grid, Run(w, a, [ch as int]).grid)
    ensures !SameScreen(Run(w, a, [ch as int]).grid, Run(w, b, [ch as int]).grid)
  {
    hide Run, Look, PrintNarrow;
    RunLetter(w, a, ch);
    RunLetter(w, b, ch);
    NarrowAt(b, ch);
    WrapLeaves(a, ch);
    LetterLooks(Edge(a), b.pen, ch);
    LetterLooks(BlankCell(a.pen), b.pen, ch);
    ApartAt(Run(w, b, [ch as int]).grid, Run(w, a, [ch as int]).grid, a.row, a.col);
    ApartAt(Run(w, a, [ch as int]).grid, Run(w, b, [ch as int]).grid, a.row, a.col);
  }

  /** A mark brings out all of a cell that can be. */
  lemma MarkShows(a: Cell, b: Cell, mark: char)
    requires Look(a) == Look(b) && Look(a.(zw := mark)) == Look(b.(zw := mark)) && mark != '\0'
    ensures Plainly(a) == Plainly(b)
  {}

  /** The cell a mark printed at the cursor goes to, when it is no right half. */
  lemma MarkLands(v: Vt, c: nat, mark: char)
    requires v.Valid() && c < v.cols && !v.grid[v.row][c].spacer
    requires if v.wrap then c == v.col else c + 1 == v.col
    ensures Combine(v, mark).grid[v.row][c] == v.grid[v.row][c].(zw := mark)
  {}

  /** Clearing the screen, and then a mark. */
  function ClearedThen(mark: char): seq<byte> { Sequence(false, [2], 'J' as int) + EncodeChar(mark) }

  lemma RunClearedThen(w: Widths, v: Vt, mark: char)
    requires v.Valid() && v.parse == Ground && HasLetters(w, mark)
    ensures Run(w, v, ClearedThen(mark)) == Combine(EraseAll(v), mark)
  {
    hide Run, EncodeChar, Combine;
    RunSequence(w, v, false, [2], 'J' as int);
    RunConcat(w, v, Sequence(false, [2], 'J' as int), EncodeChar(mark));
    RunChar(w, EraseAll(v), mark);
  }

  /** Without one, a mark never goes to the cell the cursor is on. */
  lemma MarkAside(v: Vt, mark: char)
    requires v.Valid() && !v.wrap
    ensures Combine(v, mark).grid[v.row][v.col] == v.grid[v.row][v.col]
  {}

  /** A mark on a cleared screen shows a pending wrap too, in any number of columns. */
  lemma WrapMarks(w: Widths, a: Vt, b: Vt, mark: char)
    requires Edged(a) && Edged(b) && (a.cols, a.rows, a.row, a.col) == (b.cols, b.rows, b.row, b.col)
    requires a.parse == b.parse == Ground && a.wrap && !b.wrap && HasLetters(w, mark)
    ensures !SameScreen(Run(w, a, ClearedThen(mark)).grid, Run(w, b, ClearedThen(mark)).grid)
    ensures !SameScreen(Run(w, b, ClearedThen(mark)).grid, Run(w, a, ClearedThen(mark)).grid)
  {
    hide Run, ClearedThen;
    RunClearedThen(w, a, mark);
    RunClearedThen(w, b, mark);
    MarkLands(EraseAll(a), a.col, mark);
    MarkAside(EraseAll(b), mark);
    hide Combine;
    var x, y := Run(w, a, ClearedThen(mark)).grid, Run(w, b, ClearedThen(mark)).grid;
    assert Look(x[a.row][a.col]) != Look(y[a.row][a.col]);
    ApartAt(x, y, a.row, a.col);
    ApartAt(y, x, a.row, a.col);
  }

  lemma CellMust(w: Widths, a: Vt, b: Vt, r: nat, c: nat, mark: char)
    requires Edged(a) && Edged(b) && (a.cols, a.rows) == (b.cols, b.rows) && HasLetters(w, mark)
    requires Indistinct(w, a, b) && r < a.rows && c + 1 < a.cols
    ensures Plainly(a.grid[r][c]) == Plainly(b.grid[r][c])
  {
    ShowsNow(w, a, b);
    var x, y := a.grid[r][c], b.grid[r][c];
    assert Look(x) == Look(y);
    LookSpacer(x, y);
    if !x.spacer {
      assert Shows(Run(w, a, AtThen(r, c + 1, mark)), Run(w, b, AtThen(r, c + 1, mark)));
      hide Run, AtThen, Look, Plainly, Indistinct, Shows;
      MarkAt(w, a, r, c, mark);
      MarkAt(w, b, r, c, mark);
      SameAt(Run(w, a, AtThen(r, c + 1, mark)), Run(w, b, AtThen(r, c + 1, mark)), r, c);
      MarkShows(x, y, mark);
    }
  }

  lemma MarkAt(w: Widths, v: Vt, r: nat, c: nat, mark: char)
    requires Edged(v) && HasLetters(w, mark) && r < v.rows && c + 1 < v.cols && !v.grid[r][c].spacer
    ensures Run(w, v, AtThen(r, c + 1, mark)).grid[r][c] == v.grid[r][c].(zw := mark)
  {
    hide Run, AtThen;
    RunAtThen(w, v, r, c + 1, mark);
    MarkLands(v.(parse := Ground, row := r, col := c + 1, wrap := false), c, mark);
    hide Combine;
  }

  lemma SameAt(a: Vt, b: Vt, r: nat, c: nat)
    requires a.Valid() && b.Valid() && (a.cols, a.rows) == (b.cols, b.rows) && Shows(a, b) && r < a.rows && c < a.cols
    ensures Look(a.grid[r][c]) == Look(b.grid[r][c])
  {
    hide Look;
  }

  lemma GridMust(w: Widths, a: Vt, b: Vt, mark: char)
    requires Edged(a) && Edged(b) && (a.cols, a.rows) == (b.cols, b.rows) && HasLetters(w, mark)
    requires Indistinct(w, a, b)
    ensures GridsAlike(a.grid, b.grid)
  {
    ShowsNow(w, a, b);
    hide Look, Plainly;
    forall r | 0 <= r < |a.grid| ensures RowsAlike(a.grid[r], b.grid[r]) {
      forall c | 0 <= c < a.cols - 1 ensures Plainly(a.grid[r][c]) == Plainly(b.grid[r][c]) {
        CellMust(w, a, b, r, c, mark);
      }
      assert forall c :: 0 <= c < a.cols ==> Look(b.grid[r][c]) == Look(a.grid[r][c]);
    }
  }

  /** With a wrap pending, a mark goes to the cell it is pending on. */
  lemma EdgeMust(w: Widths, a: Vt, b: Vt, mark: char)
    requires Edged(a) && Edged(b) && (a.cols, a.rows, a.row, a.col) == (b.cols, b.rows, b.row, b.col)
    requires HasLetters(w, mark) && a.parse == b.parse == Ground && a.wrap && b.wrap && Indistinct(w, a, b)
    ensures Plainly(Edge(a)) == Plainly(Edge(b))
  {
    ShowsNow(w, a, b);
    var x, y := Edge(a), Edge(b);
    assert Look(x) == Look(y);
    LookSpacer(x, y);
    if !x.spacer {
      var bytes := EncodeChar(mark);
      hide Run, EncodeChar, Look, Plainly;
      assert Shows(Run(w, a, bytes), Run(w, b, bytes));
      RunChar(w, a, mark);
      RunChar(w, b, mark);
      MarkLands(a, a.col, mark);
      MarkLands(b, b.col, mark);
      hide Combine;
      MarkShows(x, y, mark);
    }
  }

  /** Leaving the alternate screen: ESC[?1049l. */
  const ALT_OFF: seq<byte> := Sequence(true, [1049], 'l' as int)

  lemma RunAltOff(w: Widths, v: Vt)
    requires v.Valid()
    ensures Run(w, v, ALT_OFF) == LeaveAlt(v.(parse := Ground))
  {
    hide Run, Sequence;
    RunEscaped(w, v, true, [1049], 'l' as int);
  }

  /** The modes that are switched: the cursor's, the paste's, and the buffer's, which
      keeps and gives back the cursor and the screen it had. */
  lemma Switches(w: Widths, v: Vt, on: bool)
    requires v.Valid()
    ensures var ground, final := v.(parse := Ground), if on then 'h' as int else 'l' as int;
            && Run(w, v, Sequence(true, [25], final)) == ground.(visible := on)
            && Run(w, v, Sequence(true, [2004], final)) == ground.(paste := on)
            && (!v.alt ==>
                  var there := Run(w, v, Sequence(true, [1049], 'h' as int));
                  && there.alt && (there.row, there.col) == (v.row, v.col)
                  && Run(w, there, ALT_OFF)
                     == ground.(other := there.other, saved := there.saved, wrap := false))
  {
    hide Run, Sequence, Dispatch;
    var final := if on then 'h' as int else 'l' as int;
    RunEscaped(w, v, true, [25], final);
    RunEscaped(w, v, true, [2004], final);
    RunEscaped(w, v, true, [1049], 'h' as int);
    RunAltOff(w, Run(w, v, Sequence(true, [1049], 'h' as int)));
    ModesAre(v.(parse := Ground), on, final);
    ModesAre(v.(parse := Ground), true, 'h' as int);
  }

  lemma ModesAre(v: Vt, on: bool, final: byte)
    requires v.Valid() && final == if on then 'h' as int else 'l' as int
    ensures Dispatch(v, true, [25], final) == v.(visible := on)
    ensures Dispatch(v, true, [2004], final) == v.(paste := on)
    ensures on ==> Dispatch(v, true, [1049], final) == EnterAlt(v)
  {}

  /** A letter after the last column of the last row moves everything up a row. */
  lemma LetterScrolls(v: Vt, ch: char)
    requires v.Valid() && v.wrap && v.row == v.rows - 1
    ensures var r := PrintNarrow(v, ch);
            && r.row == v.row && (forall k :: 0 <= k < v.rows - 1 ==> r.grid[k] == v.grid[k + 1])
            && r.grid[v.row] == BlankRow(v.cols, v.pen)[0 := Inked(v.pen, ch, false)]
  {}

  lemma BehindMust(w: Widths, a: Vt, b: Vt, mark: char)
    requires Edged(a) && Edged(b) && (a.cols, a.rows) == (b.cols, b.rows) && HasLetters(w, mark)
    requires a.alt && b.alt && Indistinct(w, a, b)
    ensures a.saved == b.saved && GridsAlike(a.other, b.other)
  {
    hide Indistinct, GridsAlike;
    IndistinctAfter(w, a, b, ALT_OFF);
    RunAltOff(w, a);
    RunAltOff(w, b);
    var x, y := Run(w, a, ALT_OFF), Run(w, b, ALT_OFF);
    hide Run;
    ShowsNow(w, x, y);
    GridMust(w, x, y, mark);
  }

  /** A control sequence this terminal does nothing at. */
  const IDLE: seq<byte> := Sequence(false, [], 'q' as int)

  /** It only puts a terminal out of whatever it was in the middle of. */
  lemma RunIdle(w: Widths, v: Vt)
    requires v.Valid()
    ensures Run(w, v, IDLE) == v.(parse := Ground)
  {
    hide Run, Sequence;
    RunEscaped(w, v, false, [], 'q' as int);
  }

  /** Two terminals equally far into a sequence, or both in none, cannot be told apart
      by any bytes exactly when they are alike: every difference of state that is not,
      some bytes show. */
  lemma IndistinctIffAlike(w: Widths, a: Vt, b: Vt, mark: char)
    requires Edged(a) && Edged(b) && (a.cols, a.rows) == (b.cols, b.rows) && HasLetters(w, mark)
    requires a.parse == b.parse
    ensures Indistinct(w, a, b) <==> Alike(a, b)
  {
    hide Indistinct, GridsAlike;
    if Alike(a, b) { AlikeIsIndistinct(w, a, b); }
    if Indistinct(w, a, b) { IndistinctIsAlike(w, a, b, mark); }
  }

  lemma AlikeIsIndistinct(w: Widths, a: Vt, b: Vt)
    requires Alike(a, b)
    ensures Indistinct(w, a, b)
  {
    hide GridsAlike, Run, SameScreen;
    forall bytes: seq<byte> ensures Shows(Run(w, a, bytes), Run(w, b, bytes)) {
      RunAlike(w, a, b, bytes);
      AlikeLooks(Run(w, a, bytes).grid, Run(w, b, bytes).grid);
    }
  }

  /** Whatever they are in the middle of, they are alike but for that. */
  lemma IndistinctIsAlike(w: Widths, a: Vt, b: Vt, mark: char)
    requires Edged(a) && Edged(b) && (a.cols, a.rows) == (b.cols, b.rows) && HasLetters(w, mark)
    requires Indistinct(w, a, b)
    ensures Alike(a.(parse := Ground), b.(parse := Ground))
  {
    hide Indistinct, Alike, Run;
    IndistinctAfter(w, a, b, IDLE);
    RunIdle(w, a);
    RunIdle(w, b);
    GroundIsAlike(w, a.(parse := Ground), b.(parse := Ground), mark);
  }

  lemma GroundIsAlike(w: Widths, a: Vt, b: Vt, mark: char)
    requires Edged(a) && Edged(b) && (a.cols, a.rows) == (b.cols, b.rows) && HasLetters(w, mark)
    requires a.parse == b.parse == Ground && Indistinct(w, a, b)
    ensures Alike(a, b)
  {
    ShowsNow(w, a, b);
    GridMust(w, a, b, mark);
    if a.pen != b.pen { PenShows(w, a, b, AtThen(0, 0, 'x')); }
    if a.wrap && !b.wrap { WrapMarks(w, a, b, mark); }
    if b.wrap && !a.wrap { WrapMarks(w, b, a, mark); }
    assert a.pen == b.pen && a.wrap == b.wrap;
    if a.wrap { EdgeMust(w, a, b, mark); }
    if a.alt { BehindMust(w, a, b, mark); }
    hide Indistinct, GridsAlike, Plainly, SameScreen;
  }
}
