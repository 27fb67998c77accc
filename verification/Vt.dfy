/** A terminal, as far as the replay drives one: the control functions of
    ECMA-48 it emits (CUP, section 8.3.21; ED, section 8.3.39; SGR, section
    8.3.117), the private modes 25, 1049 and 2004, and printing of UTF-8 text
    with narrow, wide and combining characters.

    It works a byte at a time. A control sequence is ESC [, parameter bytes, and
    a final byte (section 5.4); parameters are decimal. */
module Vt {
  import opened Basics
  import opened Utf8
  import opened Text

  datatype Color = Default | Indexed(i: byte) | Rgb(r: byte, g: byte, b: byte)

  datatype Attr = Bold | Dim | Italic | Underline | Blink | Inverse | Invisible | Strikethrough

  /** `zw` is the combining mark on the cell, NUL for none. The flags of a cell
      are its attributes and whether it is the right half of a wide character. */
  datatype Cell = Cell(ch: char, zw: char, fg: Color, bg: Color, attrs: set<Attr>, spacer: bool)

  datatype Pen = Pen(fg: Color, bg: Color, attrs: set<Attr>)

  const PLAIN := Pen(Default, Default, {})

  /** Columns a character takes. Which characters take how many is the
      terminal's own table, so everything here holds for any. */
  datatype Columns = Zero | One | Two
  type Widths = char -> Columns

  type Row = seq<Cell>

  datatype Parse =
    | Ground
    | Multibyte(need: nat, least: nat, acc: nat)
    | Escape
    | Csi(private: bool, done: seq<nat>, cur: nat)

  datatype Vt = Vt(cols: nat, rows: nat, grid: seq<Row>, row: nat, col: nat, wrap: bool, pen: Pen,
                   visible: bool, alt: bool, other: seq<Row>, saved: (nat, nat), paste: bool, parse: Parse)
  {
    predicate Valid() {
      && 0 < cols && 0 < rows && row < rows && col < cols
      && |grid| == rows && (forall r :: 0 <= r < rows ==> |grid[r]| == cols)
      && |other| == rows && (forall r :: 0 <= r < rows ==> |other[r]| == cols)
      && saved.0 < rows && saved.1 < cols
    }
  }

  function BlankCell(pen: Pen): Cell { Cell(' ', '\0', Default, pen.bg, {}, false) }

  function BlankRow(cols: nat, pen: Pen): (r: Row)
    ensures |r| == cols && forall c :: 0 <= c < cols ==> r[c] == BlankCell(pen)
  {
    seq(cols, _ => BlankCell(pen))
  }

  function BlankGrid(cols: nat, rows: nat, pen: Pen): (g: seq<Row>)
    ensures |g| == rows && forall r :: 0 <= r < rows ==> g[r] == BlankRow(cols, pen)
  {
    seq(rows, _ => BlankRow(cols, pen))
  }

  function Fresh(cols: nat, rows: nat): (v: Vt)
    requires 0 < cols && 0 < rows
    ensures v.Valid()
  {
    var g := BlankGrid(cols, rows, PLAIN);
    Vt(cols, rows, g, 0, 0, false, PLAIN, true, false, g, (0, 0), false, Ground)
  }

  // ------------------------------------------------------------- printing

  /** Off the right edge: the next line, scrolling when there is none. */
  function NextLine(v: Vt): (r: Vt)
    requires v.Valid()
    ensures r.Valid() && !r.wrap && r.col == 0 && (r.cols, r.rows) == (v.cols, v.rows) && r.parse == v.parse
  {
    if v.row + 1 < v.rows then v.(row := v.row + 1, col := 0, wrap := false)
    else v.(grid := v.grid[1..] + [BlankRow(v.cols, v.pen)], col := 0, wrap := false)
  }

  function Put(grid: seq<Row>, r: nat, c: nat, cell: Cell): (g: seq<Row>)
    requires r < |grid| && c < |grid[r]|
    ensures |g| == |grid| && g[r] == grid[r][c := cell] && forall i :: 0 <= i < |grid| && i != r ==> g[i] == grid[i]
  {
    grid[r := grid[r][c := cell]]
  }

  function Inked(pen: Pen, ch: char, spacer: bool): Cell { Cell(ch, '\0', pen.fg, pen.bg, pen.attrs, spacer) }

  /** A row about to have `n` cells from column `c` printed over: a wide character
      that would lose one of its halves goes altogether, leaving a blank behind. */
  function Mend(row: Row, c: nat, n: nat, pen: Pen): (r: Row)
    requires 0 < n && c + n <= |row|
    ensures |r| == |row|
    ensures forall i :: 0 <= i < |row| && i + 1 != c && i != c + n ==> r[i] == row[i]
    ensures c > 0 ==> r[c - 1] == if row[c].spacer then BlankCell(pen) else row[c - 1]
    ensures c + n < |row| ==> r[c + n] == if row[c + n].spacer then BlankCell(pen) else row[c + n]
  {
    var left := if c > 0 && row[c].spacer then row[c - 1 := BlankCell(pen)] else row;
    if c + n < |row| && row[c + n].spacer then left[c + n := BlankCell(pen)] else left
  }

  /** Past what was just printed; at the right edge the cursor stays and the
      wrap is left pending. */
  function Advance(v: Vt, width: nat): (r: Vt)
    requires v.Valid()
    ensures r.Valid() && (r.cols, r.rows) == (v.cols, v.rows) && r.parse == v.parse
  {
    if v.col + width < v.cols then v.(col := v.col + width, wrap := false) else v.(col := v.cols - 1, wrap := true)
  }

  function PrintNarrow(v: Vt, ch: char): (r: Vt)
    requires v.Valid()
    ensures r.Valid() && (r.cols, r.rows) == (v.cols, v.rows) && r.parse == v.parse
  {
    var at := if v.wrap then NextLine(v) else v;
    var row := Mend(at.grid[at.row], at.col, 1, at.pen);
    Advance(at.(grid := at.grid[at.row := row[at.col := Inked(at.pen, ch, false)]]), 1)
  }

  function PrintWide(v: Vt, ch: char): (r: Vt)
    requires v.Valid()
    ensures r.Valid() && (r.cols, r.rows) == (v.cols, v.rows) && r.parse == v.parse
  {
    if v.cols < 2 then v else
    var at := if v.wrap || v.col + 1 >= v.cols then NextLine(v) else v;
    var row := Mend(at.grid[at.row], at.col, 2, at.pen);
    var inked := row[at.col := Inked(at.pen, ch, false)][at.col + 1 := Inked(at.pen, '\0', true)];
    Advance(at.(grid := at.grid[at.row := inked]), 2)
  }

  /** A combining mark belongs to the character before the cursor, whose left
      half may be one column further back. */
  function Combine(v: Vt, mark: char): (r: Vt)
    requires v.Valid()
    ensures r.Valid() && (r.cols, r.rows) == (v.cols, v.rows) && r.parse == v.parse
  {
    if !v.wrap && v.col == 0 then v else
    var last := if v.wrap then v.col else v.col - 1;
    var base := if v.grid[v.row][last].spacer && last > 0 then last - 1 else last;
    v.(grid := Put(v.grid, v.row, base, v.grid[v.row][base].(zw := mark)))
  }

  function Print(w: Widths, v: Vt, ch: char): (r: Vt)
    requires v.Valid()
    ensures r.Valid() && (r.cols, r.rows) == (v.cols, v.rows) && r.parse == v.parse
  {
    if IsControl(ch) then v else
    match w(ch)
    case Zero => Combine(v, ch)
    case One => PrintNarrow(v, ch)
    case Two => PrintWide(v, ch)
  }

  // ---------------------------------------------------- control functions

  /** A parameter of CUP counts from one, and an absent or zero one means one. */
  function Place(param: nat, limit: nat): (r: nat)
    requires 0 < limit
    ensures r < limit
  {
    if param == 0 then 0 else if param <= limit then param - 1 else limit - 1
  }

  function CursorTo(v: Vt, params: seq<nat>): (r: Vt)
    requires v.Valid() && params != []
    ensures r.Valid() && (r.cols, r.rows) == (v.cols, v.rows)
  {
    v.(row := Place(params[0], v.rows), col := Place(if |params| > 1 then params[1] else 1, v.cols), wrap := false)
  }

  /** ED 2. Erased cells take the current background. */
  function EraseAll(v: Vt): (r: Vt)
    requires v.Valid()
    ensures r.Valid() && (r.cols, r.rows) == (v.cols, v.rows)
  {
    v.(grid := BlankGrid(v.cols, v.rows, v.pen))
  }

  /** What the plain SGR codes 0 to 9 do to a pen. Six, rapid blink, is nothing
      this terminal draws. */
  function PlainCode(pen: Pen, code: nat): Pen {
    if code == 0 then PLAIN
    else if code == 1 then pen.(attrs := pen.attrs + {Bold})
    else if code == 2 then pen.(attrs := pen.attrs + {Dim})
    else if code == 3 then pen.(attrs := pen.attrs + {Italic})
    else if code == 4 then pen.(attrs := pen.attrs + {Underline})
    else if code == 5 then pen.(attrs := pen.attrs + {Blink})
    else if code == 7 then pen.(attrs := pen.attrs + {Inverse})
    else if code == 8 then pen.(attrs := pen.attrs + {Invisible})
    else if code == 9 then pen.(attrs := pen.attrs + {Strikethrough})
    else pen
  }

  /** The codes above nine that stand alone: resets and the sixteen colours. */
  function HighCode(pen: Pen, code: nat): Pen {
    if code == 22 then pen.(attrs := pen.attrs - {Bold, Dim})
    else if code == 23 then pen.(attrs := pen.attrs - {Italic})
    else if code == 24 then pen.(attrs := pen.attrs - {Underline})
    else if code == 25 then pen.(attrs := pen.attrs - {Blink})
    else if code == 27 then pen.(attrs := pen.attrs - {Inverse})
    else if code == 28 then pen.(attrs := pen.attrs - {Invisible})
    else if code == 29 then pen.(attrs := pen.attrs - {Strikethrough})
    else if 30 <= code <= 37 then pen.(fg := Indexed(code - 30))
    else if code == 39 then pen.(fg := Default)
    else if 40 <= code <= 47 then pen.(bg := Indexed(code - 40))
    else if code == 49 then pen.(bg := Default)
    else if 90 <= code <= 97 then pen.(fg := Indexed(code - 82))
    else if 100 <= code <= 107 then pen.(bg := Indexed(code - 92))
    else pen
  }

  function Dye(pen: Pen, ground: bool, c: Color): Pen {
    if ground then pen.(bg := c) else pen.(fg := c)
  }

  /** SGR, left to right. 38 and 48 take the parameters that follow as a colour,
      in the form 5;index or 2;red;green;blue; one that is not in either form
      spoils the rest of the sequence. */
  function ApplySgr(pen: Pen, params: seq<nat>): Pen
    decreases |params|
  {
    if params == [] then pen
    else if params[0] == 38 || params[0] == 48 then
      var ground := params[0] == 48;
      if |params| >= 3 && params[1] == 5 && params[2] < 256 then
        ApplySgr(Dye(pen, ground, Indexed(params[2])), params[3..])
      else if |params| >= 5 && params[1] == 2 && params[2] < 256 && params[3] < 256 && params[4] < 256 then
        ApplySgr(Dye(pen, ground, Rgb(params[2], params[3], params[4])), params[5..])
      else pen
    else if params[0] < 10 then ApplySgr(PlainCode(pen, params[0]), params[1..])
    else ApplySgr(HighCode(pen, params[0]), params[1..])
  }

  function EnterAlt(v: Vt): (r: Vt)
    requires v.Valid()
    ensures r.Valid() && (r.cols, r.rows) == (v.cols, v.rows)
  {
    v.(saved := (v.row, v.col), other := if v.alt then v.other else v.grid,
       grid := BlankGrid(v.cols, v.rows, v.pen), alt := true)
  }

  function LeaveAlt(v: Vt): (r: Vt)
    requires v.Valid()
    ensures r.Valid() && (r.cols, r.rows) == (v.cols, v.rows)
  {
    if !v.alt then v
    else v.(grid := v.other, alt := false, row := v.saved.0, col := v.saved.1, wrap := false)
  }

  function SetMode(v: Vt, mode: nat, on: bool): (r: Vt)
    requires v.Valid()
    ensures r.Valid() && (r.cols, r.rows) == (v.cols, v.rows)
  {
    if mode == 25 then v.(visible := on)
    else if mode == 2004 then v.(paste := on)
    else if mode == 1049 then (if on then EnterAlt(v) else LeaveAlt(v))
    else v
  }

  function Dispatch(v: Vt, private: bool, params: seq<nat>, final: byte): (r: Vt)
    requires v.Valid() && params != []
    ensures r.Valid() && (r.cols, r.rows) == (v.cols, v.rows)
  {
    if private then
      if final == 'h' as int then SetMode(v, params[0], true)
      else if final == 'l' as int then SetMode(v, params[0], false)
      else v
    else if final == 'H' as int then CursorTo(v, params)
    else if final == 'J' as int then (if params[0] == 2 then EraseAll(v) else v)
    else if final == 'm' as int then v.(pen := ApplySgr(v.pen, params))
    else v
  }

  // ---------------------------------------------------------- byte by byte

  /** A byte outside any sequence: ESC, the start of a character, or a control
      or malformed byte this terminal ignores. */
  function StepGround(w: Widths, v: Vt, b: byte): (r: Vt)
    requires v.Valid()
    ensures r.Valid() && (r.cols, r.rows) == (v.cols, v.rows)
  {
    if b == 0x1B then v.(parse := Escape)
    else match Lead(b)
      case None => v.(parse := Ground)
      case Some((tails, bits)) =>
        if tails == 0 then Print(w, v.(parse := Ground), b as char)
        else v.(parse := Multibyte(tails, Least(tails), bits))
  }

  /** A byte after the lead byte of a character. */
  function StepMultibyte(w: Widths, v: Vt, b: byte): (r: Vt)
    requires v.Valid() && v.parse.Multibyte?
    ensures r.Valid() && (r.cols, r.rows) == (v.cols, v.rows)
  {
    var Multibyte(need, least, acc) := v.parse;
    if !IsTail(b) then StepGround(w, v, b) else
    var n := acc * 64 + (b - 0x80);
    if need > 1 then v.(parse := Multibyte(need - 1, least, n))
    else if least <= n && IsScalar(n) then Print(w, v.(parse := Ground), n as char)
    else v.(parse := Ground)
  }

  /** A byte of a control sequence: of a parameter, or its final byte. */
  function StepCsi(w: Widths, v: Vt, b: byte): (r: Vt)
    requires v.Valid() && v.parse.Csi?
    ensures r.Valid() && (r.cols, r.rows) == (v.cols, v.rows)
  {
    var Csi(private, done, cur) := v.parse;
    if '0' as int <= b <= '9' as int then v.(parse := Csi(private, done, cur * 10 + (b - '0' as int)))
    else if b == ';' as int then v.(parse := Csi(private, done + [cur], 0))
    else if b == '?' as int then v.(parse := Csi(true, done, cur))
    else if 0x40 <= b < 0x7F then Dispatch(v.(parse := Ground), private, done + [cur], b)
    else StepGround(w, v, b)
  }

  function Step(w: Widths, v: Vt, b: byte): (r: Vt)
    requires v.Valid()
    ensures r.Valid() && (r.cols, r.rows) == (v.cols, v.rows)
  {
    match v.parse
    case Ground => StepGround(w, v, b)
    case Multibyte(need, least, acc) => StepMultibyte(w, v, b)
    case Escape =>
      if b == '[' as int then v.(parse := Csi(false, [], 0))
      else if b == 0x1B then v
      else v.(parse := Ground)
    case Csi(private, done, cur) => StepCsi(w, v, b)
  }

  function Run(w: Widths, v: Vt, bytes: seq<byte>): (r: Vt)
    requires v.Valid()
    ensures r.Valid() && (r.cols, r.rows) == (v.cols, v.rows)
    decreases |bytes|
  {
    if bytes == [] then v else Run(w, Step(w, v, bytes[0]), bytes[1..])
  }

  /** Whatever a terminal was in the middle of, an ESC puts it out of it: what
      starts with one does the same to it as to one between sequences. */
  lemma EscapeRecovers(w: Widths, v: Vt, bytes: seq<byte>)
    requires v.Valid() && bytes != [] && bytes[0] == 0x1B
    ensures Run(w, v, bytes) == Run(w, v.(parse := Ground), bytes)
  {
    assert Step(w, v, bytes[0]) == v.(parse := Escape);
    assert Step(w, v.(parse := Ground), bytes[0]) == v.(parse := Escape);
  }

  lemma {:induction false} RunConcat(w: Widths, v: Vt, a: seq<byte>, b: seq<byte>)
    requires v.Valid()
    ensures Run(w, v, a + b) == Run(w, Run(w, v, a), b)
    decreases |a|
  {
    if a == [] {
      assert a + b == b;
    } else {
      assert (a + b)[1..] == a[1..] + b;
      RunConcat(w, Step(w, v, a[0]), a[1..], b);
    }
  }
}
