/** Rebuilding a client's screen when it reconnects (devpipe/src/replay.rs): the
    ANSI that paints what a terminal currently shows. */
module Replay {
  import opened Basics
  import opened Utf8
  import opened Vt

  /** What the daemon's own terminal answers when it is asked: its size, the
      visible rows, the cursor and three modes. */
  datatype Terminal = Terminal(cols: nat, rows: nat, cells: seq<Row>, cursor: (nat, nat),
                               visible: bool, alt: bool, paste: bool)
  {
    predicate Sized() {
      && 0 < cols && 0 < rows && |cells| == rows && (forall r :: 0 <= r < rows ==> |cells[r]| == cols)
      && cursor.0 < rows && cursor.1 < cols
    }
  }

  const ESC: byte := 0x1B

  // The sequences with nothing to fill in, byte for byte: ESC[?1049h, ESC[H,
  // ESC[2J, ESC[m, ESC[?25h, ESC[?25l and ESC[?2004h.
  const ALT_ON: seq<byte> := [ESC, '[' as int, '?' as int, '1' as int, '0' as int, '4' as int, '9' as int, 'h' as int]
  const HOME: seq<byte> := [ESC, '[' as int, 'H' as int]
  const CLEAR: seq<byte> := [ESC, '[' as int, '2' as int, 'J' as int]
  const PEN_OFF: seq<byte> := [ESC, '[' as int, 'm' as int]
  const SHOW: seq<byte> := [ESC, '[' as int, '?' as int, '2' as int, '5' as int, 'h' as int]
  const HIDE: seq<byte> := [ESC, '[' as int, '?' as int, '2' as int, '5' as int, 'l' as int]
  const PASTE_ON: seq<byte> := [ESC, '[' as int, '?' as int, '2' as int, '0' as int, '0' as int, '4' as int, 'h' as int]

  /** The attributes in the order they are written, with their SGR codes. */
  const TABLE: seq<(Attr, nat)> :=
    [(Bold, 1), (Dim, 2), (Italic, 3), (Underline, 4), (Blink, 5), (Inverse, 7), (Invisible, 8), (Strikethrough, 9)]

  function Decimal(n: nat): (r: seq<byte>)
    ensures r != []
  {
    if n < 10 then [48 + n] else Decimal(n / 10) + [48 + n % 10]
  }

  /** A parameter after the first, behind its separator. */
  function Param(n: nat): seq<byte> { [';' as int] + Decimal(n) }

  function Tail(params: seq<nat>): seq<byte> {
    if params == [] then [] else Param(params[0]) + Tail(params[1..])
  }

  /** A control sequence: ESC [, an optional `?`, the parameters, the final byte. */
  function Sequence(private: bool, params: seq<nat>, final: byte): seq<byte> {
    [ESC, '[' as int] + (if private then ['?' as int] else [])
    + (if params == [] then [] else Decimal(params[0]) + Tail(params[1..])) + [final]
  }

  function AttrCodes(attrs: set<Attr>, k: nat): seq<nat>
    decreases 8 - k, attrs
  {
    if k >= 8 then [] else (if TABLE[k].0 in attrs then [TABLE[k].1] else []) + AttrCodes(attrs, k + 1)
  }

  function ColorCodes(c: Color, ground: bool): seq<nat> {
    var head := if ground then 48 else 38;
    match c
    case Default => []
    case Indexed(i) => [head, 5, i]
    case Rgb(r, g, b) => [head, 2, r, g, b]
  }

  function PenOf(c: Cell): Pen { Pen(c.fg, c.bg, c.attrs) }

  /** The parameters `sgr` writes after its leading 0: attributes, then colours. */
  function Codes(pen: Pen): seq<nat> {
    AttrCodes(pen.attrs, 0) + (ColorCodes(pen.fg, false) + ColorCodes(pen.bg, true))
  }

  function SgrCodes(pen: Pen): seq<nat> { [0] + Codes(pen) }

  function SgrBytes(pen: Pen): seq<byte> { Sequence(false, SgrCodes(pen), 'm' as int) }

  /** A cell that paints nothing over a cleared screen, as the code judges it.
      The combining mark is not asked about. */
  predicate Blank(c: Cell) { c.ch == ' ' && c.bg == Default && c.attrs == {} && !c.spacer }

  /** Where a row's trailing blanks begin. */
  function End(row: Row): (e: nat)
    ensures e <= |row| && (forall i :: e <= i < |row| ==> Blank(row[i])) && (e > 0 ==> !Blank(row[e - 1]))
  {
    if row != [] && Blank(row[|row| - 1]) then End(row[..|row| - 1]) else |row|
  }

  function Glyph(c: Cell): seq<byte> {
    EncodeChar(if c.ch == '\0' then ' ' else c.ch) + (if c.zw != '\0' then EncodeChar(c.zw) else [])
  }

  /** Cells `i` to `end` of a row. A spacer is skipped; a pen is written when it
      differs from the last one written or, for the naive painter, every time. */
  function Paint(row: Row, i: nat, end: nat, last: Option<Pen>, every: bool): seq<byte>
    requires i <= end <= |row|
    decreases end - i
  {
    if i == end then []
    else if row[i].spacer then Paint(row, i + 1, end, last, every)
    else Ink(row[i], last, every) + Paint(row, i + 1, end, Some(PenOf(row[i])), every)
  }

  function Ink(c: Cell, last: Option<Pen>, every: bool): seq<byte> {
    (if every || last != Some(PenOf(c)) then SgrBytes(PenOf(c)) else []) + Glyph(c)
  }

  function Line(row: Row, r: nat, every: bool): seq<byte> {
    var end := if every then |row| else End(row);
    if end == 0 then [] else
    Sequence(false, [r + 1, 1], 'H' as int) + Paint(row, 0, end, None, every) + PEN_OFF
  }

  function Lines(cells: seq<Row>, r: nat, every: bool): seq<byte>
    requires r <= |cells|
    decreases |cells| - r
  {
    if r == |cells| then [] else Line(cells[r], r, every) + Lines(cells, r + 1, every)
  }

  function Opening(alt: bool): seq<byte> {
    (if alt then ALT_ON else [])
    + HOME + CLEAR + PEN_OFF
  }

  function Closing(t: Terminal): seq<byte> {
    Sequence(false, [t.cursor.0 + 1, t.cursor.1 + 1], 'H' as int)
    + (if t.visible then SHOW else HIDE)
    + (if t.paste then PASTE_ON else [])
  }

  /** The whole replay. With `every`, the naive painter it has to agree with:
      every row, every cell, its own SGR each time. */
  function Ansi(t: Terminal, every: bool): seq<byte> {
    Opening(t.alt) + Lines(t.cells, 0, every) + Closing(t)
  }

  // ---------------------------------------------------- the printer itself

  /** Writing one more parameter extends the list. */
  lemma {:induction false} TailSnoc(params: seq<nat>, n: nat)
    ensures Tail(params + [n]) == Tail(params) + Param(n)
  {
    if params == [] {
      assert [n][1..] == [];
    } else {
      assert (params + [n])[1..] == params[1..] + [n];
      TailSnoc(params[1..], n);
    }
  }

  method PushParam(s: seq<byte>, n: nat, ghost base: seq<byte>, ghost params: seq<nat>) returns (out: seq<byte>)
    requires s == base + Tail(params)
    ensures out == base + Tail(params + [n])
  {
    out := s + Param(n);
    TailSnoc(params, n);
  }

  /** One `write!` of several parameters. */
  method PushAll(s: seq<byte>, codes: seq<nat>, ghost base: seq<byte>, ghost params: seq<nat>) returns (out: seq<byte>)
    requires s == base + Tail(params)
    ensures out == base + Tail(params + codes)
  {
    out := s;
    assert params + codes[..0] == params;
    for k := 0 to |codes|
      invariant out == base + Tail(params + codes[..k])
    {
      out := PushParam(out, codes[k], base, params + codes[..k]);
      assert params + codes[..k] + [codes[k]] == params + codes[..k + 1];
    }
    assert codes[..|codes|] == codes;
  }

  method PushColor(s: seq<byte>, c: Color, fg: bool, ghost base: seq<byte>, ghost params: seq<nat>)
    returns (out: seq<byte>)
    requires s == base + Tail(params)
    ensures out == base + Tail(params + ColorCodes(c, !fg))
  {
    out := s;
    match c
    case Default =>
      assert params + [] == params;
    case Indexed(i) =>
      out := PushAll(out, [if fg then 38 else 48, 5, i], base, params);
    case Rgb(r, g, b) =>
      out := PushAll(out, [if fg then 38 else 48, 2, r, g, b], base, params);
  }

  const RESET: seq<byte> := [ESC, '[' as int, '0' as int]

  lemma SgrShape(pen: Pen)
    ensures SgrBytes(pen) == RESET + Tail(Codes(pen)) + ['m' as int]
  {
    assert SgrCodes(pen)[1..] == Codes(pen);
  }

  lemma AttrStep(attrs: set<Attr>, k: nat)
    requires k < 8
    ensures AttrCodes(attrs, k) == (if TABLE[k].0 in attrs then [TABLE[k].1] else []) + AttrCodes(attrs, k + 1)
    ensures TABLE[k].0 !in attrs ==> AttrCodes(attrs, k) == AttrCodes(attrs, k + 1)
  {}

  method PushAttrs(s: seq<byte>, attrs: set<Attr>) returns (out: seq<byte>)
    ensures out == s + Tail(AttrCodes(attrs, 0))
  {
    hide AttrCodes, Tail;
    out := s;
    ghost var codes: seq<nat> := [];
    StartTail(s, AttrCodes(attrs, 0));
    for k := 0 to 8
      invariant out == s + Tail(codes)
      invariant codes + AttrCodes(attrs, k) == AttrCodes(attrs, 0)
    {
      var (flag, code) := TABLE[k];
      AttrStep(attrs, k);
      if flag in attrs {
        Assoc(codes, [code], AttrCodes(attrs, k + 1));
        out := PushParam(out, code, s, codes);
        codes := codes + [code];
      }
    }
    assert codes + AttrCodes(attrs, 8) == codes by { NoMoreAttrs(attrs); }
  }

  lemma StartTail(s: seq<byte>, codes: seq<nat>)
    ensures s == s + Tail([]) && [] + codes == codes
  {}

  lemma NoMoreAttrs(attrs: set<Attr>)
    ensures AttrCodes(attrs, 8) == []
  {}

  method Sgr(cell: Cell) returns (s: seq<byte>)
    ensures s == SgrBytes(PenOf(cell))
  {
    s := PushAttrs(RESET, cell.attrs);
    ghost var codes := AttrCodes(cell.attrs, 0);
    s := PushColor(s, cell.fg, true, RESET, codes);
    s := PushColor(s, cell.bg, false, RESET, codes + ColorCodes(cell.fg, false));
    assert codes + ColorCodes(cell.fg, false) + ColorCodes(cell.bg, true) == Codes(PenOf(cell));
    s := s + ['m' as int];
    SgrShape(PenOf(cell));
  }

  method Push(out: seq<byte>, cell: Cell, last: Option<Pen>) returns (r: seq<byte>, pen: Option<Pen>)
    ensures r == out + Ink(cell, last, false) && pen == Some(PenOf(cell))
  {
    r, pen := out, last;
    var key := PenOf(cell);
    if pen != Some(key) {
      var s := Sgr(cell);
      r := r + s;
      pen := Some(key);
      Assoc(out, s, Glyph(cell));
    }
    ghost var inked := r;
    var c := EncodeChar(if cell.ch == '\0' then ' ' else cell.ch);
    r := r + c;
    if cell.zw != '\0' {
      r := r + EncodeChar(cell.zw);
      Assoc(inked, c, EncodeChar(cell.zw));
    }
  }

  method PaintRow(row: Row, end: nat) returns (out: seq<byte>)
    requires end <= |row|
    ensures out == Paint(row, 0, end, None, false)
  {
    hide Ink;
    out := [];
    var pen: Option<Pen> := None;
    for i := 0 to end
      invariant out + Paint(row, i, end, pen, false) == Paint(row, 0, end, None, false)
    {
      if row[i].spacer {
        continue;
      }
      Assoc(out, Ink(row[i], pen, false), Paint(row, i + 1, end, Some(PenOf(row[i])), false));
      out, pen := Push(out, row[i], pen);
    }
  }

  /** Scanning back over a row's trailing blanks. */
  method RowEnd(row: Row) returns (end: nat)
    ensures end == End(row)
  {
    end := |row|;
    assert row[..end] == row;
    while end > 0 && Blank(row[end - 1])
      invariant end <= |row|
      invariant End(row[..end]) == End(row)
    {
      assert row[..end][..end - 1] == row[..end - 1];
      end := end - 1;
    }
  }

  method PushLine(out: seq<byte>, row: Row, r: nat) returns (o: seq<byte>)
    ensures o == out + Line(row, r, false)
  {
    o := out;
    var end := RowEnd(row);
    if end == 0 {
      return;
    }
    o := o + Sequence(false, [r + 1, 1], 'H' as int);
    var painted := PaintRow(row, end);
    o := o + painted;
    o := o + PEN_OFF;
  }

  method PushClosing(out: seq<byte>, term: Terminal) returns (o: seq<byte>)
    ensures o == out + Closing(term)
  {
    o := out + Sequence(false, [term.cursor.0 + 1, term.cursor.1 + 1], 'H' as int);
    o := o + (if term.visible then SHOW else HIDE);
    if term.paste {
      o := o + PASTE_ON;
    }
  }

  method PushOpening(alt: bool) returns (out: seq<byte>)
    ensures out == Opening(alt)
  {
    out := [];
    if alt {
      out := out + ALT_ON;
    }
    out := out + HOME + CLEAR + PEN_OFF;
  }

  method PushLines(out: seq<byte>, cells: seq<Row>) returns (o: seq<byte>)
    ensures o == out + Lines(cells, 0, false)
  {
    hide Line;
    o := out;
    for r := 0 to |cells|
      invariant o + Lines(cells, r, false) == out + Lines(cells, 0, false)
    {
      ghost var before := o;
      o := PushLine(o, cells[r], r);
      Assoc(before, Line(cells[r], r, false), Lines(cells, r + 1, false));
    }
  }

  /** `screen_as_ansi`. */
  method ScreenAsAnsi(term: Terminal) returns (out: seq<byte>)
    requires term.Sized()
    ensures out == Ansi(term, false)
  {
    out := PushOpening(term.alt);
    out := PushLines(out, term.cells);
    out := PushClosing(out, term);
  }
}
