/** After the replay: what is a client's screen worth once the child goes on
    printing? A daemon's terminal `m` and a client `v` that was just replayed it,
    fresh or attached all along, are fed the same further bytes. */
module Resume {
  import opened Basics
  import opened Utf8
  import opened Vt
  import opened Replay
  import opened Sequences
  import opened Screens
  import opened Roundtrip
  import opened Likeness
  import opened Observed

  /** A client `v` that has been replayed `m`. */
  function Client(w: Widths, v: Vt, m: Vt): (c: Vt)
    requires v.Valid() && m.Valid()
    ensures c.Valid() && (c.cols, c.rows) == (v.cols, v.rows)
  {
    Run(w, v, Ansi(Answered(m), false))
  }

  lemma ClientIs(w: Widths, v: Vt, m: Vt)
    requires Kept(w, m) && v.Valid() && (v.cols, v.rows) == (m.cols, m.rows)
    ensures Client(w, v, m) == Closed(Opened(v, m.alt), Answered(m)).(grid := Painted(v.pen.bg, m.grid, false))
  {
    hide Run, RowOk, Opened, Closed;
    PaintLands(w, v, Answered(m), false);
  }

  /** Nothing was trimmed but plain blanks, and they were not cleared to a colour.
      In the last column a blank may have any text colour. */
  ghost predicate TailsCarried(cells: seq<Row>, back: Color) {
    forall r, c :: 0 <= r < |cells| && End(cells[r]) <= c < |cells[r]| ==>
      cells[r][c].zw == '\0' && back == Default && (c + 1 < |cells[r]| ==> cells[r][c].fg == Default)
  }

  /** What a client keeps behind the alternate screen it is made to enter. */
  function Behind(v: Vt): seq<Row> { if v.alt then v.other else v.grid }

  /** A replay carries all there is of `m` over to `v`: a plain pen and no wrap
      pending, plain blanks where it trims, modes `v` need not leave, and behind an
      alternate screen what `v` has there itself. */
  ghost predicate Carries(v: Vt, m: Vt) {
    && m.pen == PLAIN && !m.wrap && TailsCarried(m.grid, v.pen.bg)
    && (v.alt ==> m.alt) && (v.paste ==> m.paste)
    && (m.alt ==> m.saved == (v.row, v.col) && GridsAlike(m.other, Behind(v)))
  }

  lemma TailCell(back: Color, row: Row, c: nat)
    requires c < |row|
    ensures var shown := Shown(back, row, End(row))[c];
            && (Look(row[c]) == Look(shown) <==> c < End(row) || (row[c].zw == '\0' && back == Default))
            && (Plainly(row[c]) == Plainly(shown)
                <==> c < End(row) || (row[c].zw == '\0' && back == Default && row[c].fg == Default))
  {}

  lemma PaintedAlike(back: Color, cells: seq<Row>)
    ensures GridsAlike(cells, Painted(back, cells, false)) <==> TailsCarried(cells, back)
  {
    var g := Painted(back, cells, false);
    hide Look, Plainly, Shown;
    if TailsCarried(cells, back) {
      forall r | 0 <= r < |cells| ensures RowsAlike(cells[r], g[r]) {
        forall c | 0 <= c < |cells[r]| ensures Look(cells[r][c]) == Look(g[r][c]) { TailCell(back, cells[r], c); }
        forall c | 0 <= c < |cells[r]| - 1 ensures Plainly(cells[r][c]) == Plainly(g[r][c]) {
          TailCell(back, cells[r], c);
        }
      }
    }
    if GridsAlike(cells, g) {
      forall r, c | 0 <= r < |cells| && End(cells[r]) <= c < |cells[r]|
        ensures cells[r][c].zw == '\0' && back == Default && (c + 1 < |cells[r]| ==> cells[r][c].fg == Default)
      {
        assert RowsAlike(cells[r], g[r]);
        TailCell(back, cells[r], c);
      }
    }
  }

  /** The client and the terminal it was replayed are alike, but for a sequence the
      terminal is in the middle of, exactly when the replay carries all there is. */
  lemma AlikeIffCarried(w: Widths, v: Vt, m: Vt)
    requires Kept(w, m) && v.Valid() && (v.cols, v.rows) == (m.cols, m.rows)
    ensures Alike(m.(parse := Ground), Client(w, v, m)) <==> Carries(v, m)
  {
    hide Client, GridOk, Painted, GridsAlike, TailsCarried;
    ClientIs(w, v, m);
    PaintedAlike(v.pen.bg, m.grid);
  }

  // ---------------------------------------------------- an unfinished character

  /** The number spelled by continuation bytes after `acc`. */
  function Spelled(acc: nat, tails: seq<byte>): nat
    requires forall k :: 0 <= k < |tails| ==> IsTail(tails[k])
    decreases |tails|
  {
    if tails == [] then acc else
    assert IsTail(tails[0]);
    Spelled(acc * 64 + (tails[0] as int - 0x80), tails[1..])
  }

  /** Continuation bytes that would finish a character begun. */
  predicate Completes(p: Parse, tails: seq<byte>) {
    && p.Multibyte? && |tails| == (if p.need <= 1 then 1 else p.need)
    && (forall k :: 0 <= k < |tails| ==> IsTail(tails[k]))
    && p.least <= Spelled(p.acc, tails) && IsScalar(Spelled(p.acc, tails))
  }

  /** Between sequences; or in a character that, whatever it turns out to be, changes
      nothing that could be told. */
  ghost predicate Settles(w: Widths, m: Vt)
    requires m.Valid()
  {
    var ground := m.(parse := Ground);
    || m.parse == Ground
    || (m.parse.Multibyte?
        && forall tails: seq<byte> :: Completes(m.parse, tails) ==>
             Alike(ground, Print(w, ground, Spelled(m.parse.acc, tails) as char)))
  }

  /** While continuation bytes come, one terminal is still in its character and the
      other takes no notice; after it, or any other byte, they are alike. */
  lemma {:induction false} RunSettles(w: Widths, a: Vt, b: Vt, bytes: seq<byte>)
    requires Alike(a.(parse := Ground), b) && Settles(w, a)
    ensures var x, y := Run(w, a, bytes), Run(w, b, bytes); Alike(x.(parse := Ground), y.(parse := Ground))
    decreases |bytes|
  {
    var ground := a.(parse := Ground);
    if a.parse == Ground {
      assert ground == a;
      hide Alike, Run;
      RunAlike(w, a, b, bytes);
      ParseAlike(Run(w, a, bytes), Run(w, b, bytes), Ground);
    } else if bytes == [] {
      ParseAlike(ground, b, Ground);
    } else {
      var a1, b1 := Step(w, a, bytes[0]), Step(w, b, bytes[0]);
      if IsTail(bytes[0]) {
        TailSettles(w, a, b, bytes[0]);
        hide Alike, Step, Settles;
        RunSettles(w, a1, b1, bytes[1..]);
      } else {
        StepAlike(w, ground, b, bytes[0]);
        hide Alike, StepGround, Settles;
        assert Step(w, ground, bytes[0]) == a1;
        RunAlike(w, a1, b1, bytes[1..]);
        ParseAlike(Run(w, a1, bytes[1..]), Run(w, b1, bytes[1..]), Ground);
      }
    }
  }

  lemma TailSettles(w: Widths, a: Vt, b: Vt, x: byte)
    requires Alike(a.(parse := Ground), b) && Settles(w, a) && a.parse != Ground && IsTail(x)
    ensures var a1, b1 := Step(w, a, x), Step(w, b, x); Alike(a1.(parse := Ground), b1) && Settles(w, a1)
  {
    var ground := a.(parse := Ground);
    var Multibyte(need, least, acc) := a.parse;
    var n := acc * 64 + (x - 0x80);
    TailIgnored(w, b, x);
    if need > 1 {
      hide Alike, Print, Settles;
      SettlesOn(w, a, x);
    } else {
      TailEnds(w, a, b, x);
    }
  }

  lemma SettlesOn(w: Widths, a: Vt, x: byte)
    requires a.Valid() && a.parse.Multibyte? && a.parse.need > 1 && IsTail(x) && Settles(w, a)
    ensures var a1 := a.(parse := Multibyte(a.parse.need - 1, a.parse.least, a.parse.acc * 64 + (x - 0x80)));
            a1.(parse := Ground) == a.(parse := Ground) && Settles(w, a1)
  {
    hide Alike, Print;
    var ground := a.(parse := Ground);
    var Multibyte(need, least, acc) := a.parse;
    var n := acc * 64 + (x - 0x80);
    forall tails: seq<byte> | Completes(Multibyte(need - 1, least, n), tails)
      ensures Alike(ground, Print(w, ground, Spelled(n, tails) as char))
    {
      MoreTails(need, least, acc, x, tails);
    }
  }

  lemma TailEnds(w: Widths, a: Vt, b: Vt, x: byte)
    requires Alike(a.(parse := Ground), b) && Settles(w, a) && a.parse.Multibyte? && a.parse.need <= 1 && IsTail(x)
    ensures var a1 := Step(w, a, x); a1.parse == Ground && Alike(a1, b)
  {
    var ground := a.(parse := Ground);
    var n := a.parse.acc * 64 + (x - 0x80);
    if a.parse.least <= n && IsScalar(n) {
      LastTail(a.parse, x);
      hide Alike, Print, Completes;
      AlikeTransitive(ground, Print(w, ground, n as char), b);
    }
  }

  lemma MoreTails(need: nat, least: nat, acc: nat, x: byte, tails: seq<byte>)
    requires need > 1 && IsTail(x) && Completes(Multibyte(need - 1, least, acc * 64 + (x - 0x80)), tails)
    ensures Completes(Multibyte(need, least, acc), [x] + tails)
    ensures Spelled(acc, [x] + tails) == Spelled(acc * 64 + (x - 0x80), tails)
  {
    assert ([x] + tails)[1..] == tails;
  }

  lemma LastTail(p: Parse, x: byte)
    requires p.Multibyte? && p.need <= 1 && IsTail(x)
    requires var n := p.acc * 64 + (x - 0x80); p.least <= n && IsScalar(n)
    ensures Completes(p, [x]) && Spelled(p.acc, [x]) == p.acc * 64 + (x - 0x80)
  {
    assert [x][1..] == [];
  }

  /** A continuation byte between sequences is nothing. */
  lemma TailIgnored(w: Widths, v: Vt, x: byte)
    requires v.Valid() && v.parse == Ground && IsTail(x)
    ensures Step(w, v, x) == v
  {
    assert v.(parse := Ground) == v;
  }

  // ------------------------------------------------------------- main results

  /** When a replay carries all there is over, and nothing unfinished can matter, no
      bytes the child prints next, in however many pieces, tell the client from the
      daemon's own terminal. */
  lemma FollowsTheChild(w: Widths, v: Vt, m: Vt)
    requires Kept(w, m) && v.Valid() && (v.cols, v.rows) == (m.cols, m.rows)
    requires Carries(v, m) && Settles(w, m)
    ensures Indistinct(w, m, Client(w, v, m))
  {
    var c := Client(w, v, m);
    AlikeIffCarried(w, v, m);
    hide Client, Run, Settles, Carries, Shows;
    forall bytes: seq<byte> ensures Shows(Run(w, m, bytes), Run(w, c, bytes)) {
      RunSettles(w, m, c, bytes);
      AlikeShows(Run(w, m, bytes), Run(w, c, bytes));
    }
  }

  lemma AlikeShows(a: Vt, b: Vt)
    requires Alike(a.(parse := Ground), b.(parse := Ground))
    ensures Shows(a, b)
  {
    AlikeLooks(a.grid, b.grid);
    hide SameScreen, GridsAlike;
  }

  lemma {:induction false} Finishes(w: Widths, m: Vt, tails: seq<byte>)
    requires m.Valid() && Completes(m.parse, tails)
    ensures Run(w, m, tails) == Print(w, m.(parse := Ground), Spelled(m.parse.acc, tails) as char)
    decreases |tails|
  {
    hide Print;
    var Multibyte(need, least, acc) := m.parse;
    var x := tails[0];
    assert IsTail(x);
    var n := acc * 64 + (x - 0x80);
    if need <= 1 {
      assert tails == [x] && tails[1..] == [];
      RunOne(w, m, x);
    } else {
      var next := m.(parse := Multibyte(need - 1, least, n));
      assert Step(w, m, x) == next;
      hide Step;
      Finishes(w, next, tails[1..]);
    }
  }

  lemma {:induction false} TailsIgnored(w: Widths, v: Vt, tails: seq<byte>)
    requires v.Valid() && v.parse == Ground && forall k :: 0 <= k < |tails| ==> IsTail(tails[k])
    ensures Run(w, v, tails) == v
  {
    if tails != [] {
      TailIgnored(w, v, tails[0]);
      hide Step;
      TailsIgnored(w, v, tails[1..]);
    }
  }

  lemma AlikeSelf(a: Vt)
    requires a.Valid() && (a.wrap ==> a.col == a.cols - 1)
    ensures Alike(a, a)
  {
    SelfAlike(a.grid);
    SelfAlike(a.other);
    hide GridsAlike;
  }

  /** Alike to the same, alike to each other. */
  lemma AlikeBoth(a: Vt, b: Vt, c: Vt)
    requires Alike(a, c) && Alike(b, c)
    ensures Alike(a, b)
  {
    AlikeSelf(a);
    AlikeSelf(b);
    hide Alike;
    AlikeTransitive(a, c, a);
    AlikeTransitive(b, c, b);
    AlikeTransitive(c, a, b);
  }

  /** What a client cannot be told from by any bytes cannot be changed by the end of
      a character the client did not see begin. */
  lemma MustSettle(w: Widths, m: Vt, c: Vt, mark: char)
    requires Kept(w, m) && Edged(c) && (c.cols, c.rows) == (m.cols, m.rows) && HasLetters(w, mark)
    requires m.parse.Multibyte? && c.parse == Ground && Indistinct(w, m, c) && Alike(m.(parse := Ground), c)
    ensures Settles(w, m)
  {
    var ground := m.(parse := Ground);
    forall tails: seq<byte> | Completes(m.parse, tails)
      ensures Alike(ground, Print(w, ground, Spelled(m.parse.acc, tails) as char))
    {
      var done := Print(w, ground, Spelled(m.parse.acc, tails) as char);
      Finishes(w, m, tails);
      TailsIgnored(w, c, tails);
      PrintKeeps(w, ground, Spelled(m.parse.acc, tails) as char);
      hide Print, Alike, Indistinct, GridOk, Run;
      IndistinctAfter(w, m, c, tails);
      IndistinctIsAlike(w, done, c, mark);
      assert done.(parse := Ground) == done && c.(parse := Ground) == c;
      AlikeBoth(ground, done, c);
    }
  }

  /** In the middle of a control sequence a terminal swallows a letter its client
      prints. */
  lemma SwallowsShow(w: Widths, m: Vt, c: Vt)
    requires m.Valid() && c.Valid() && (c.cols, c.rows, c.row, c.col) == (m.cols, m.rows, m.row, m.col)
    requires (m.parse.Escape? || m.parse.Csi?) && c.parse == Ground && !c.wrap && w('x') == w('y') == One
    ensures !Indistinct(w, m, c)
  {
    var ch := Other(m.grid[m.row][m.col]);
    var bytes := [ch as int];
    RunOne(w, m, ch as int);
    assert Run(w, m, bytes).grid == m.grid;
    hide Run, Step, Look, PrintNarrow;
    RunLetter(w, c, ch);
    NarrowAt(c, ch);
    LetterLooks(m.grid[m.row][m.col], c.pen, ch);
    ApartAt(Run(w, c, bytes).grid, Run(w, m, bytes).grid, m.row, m.col);
    assert !Shows(Run(w, m, bytes), Run(w, c, bytes));
  }

  lemma ClientState(w: Widths, v: Vt, m: Vt)
    requires Kept(w, m) && v.Valid() && (v.cols, v.rows) == (m.cols, m.rows)
    ensures var c := Client(w, v, m);
            && c.parse == Ground && !c.wrap && c.pen == PLAIN && (c.row, c.col) == (m.row, m.col)
            && c.alt == (v.alt || m.alt) && (m.alt ==> c.saved == (v.row, v.col) && c.other == Behind(v))
  {
    ClientIs(w, v, m);
    hide Client, Painted;
  }

  /** For any client, and whatever the terminal was doing: the client follows what
      the child prints next, whatever that is, exactly when the replay carried all
      there is and what was unfinished can change nothing. */
  lemma FollowsIffResumable(w: Widths, v: Vt, m: Vt, mark: char)
    requires Kept(w, m) && v.Valid() && (v.cols, v.rows) == (m.cols, m.rows) && HasLetters(w, mark)
    ensures Indistinct(w, m, Client(w, v, m)) <==> Carries(v, m) && Settles(w, m)
  {
    if Carries(v, m) && Settles(w, m) { FollowsTheChild(w, v, m); }
    if Indistinct(w, m, Client(w, v, m)) { MustCarry(w, v, m, mark); }
  }

  lemma MustCarry(w: Widths, v: Vt, m: Vt, mark: char)
    requires Kept(w, m) && v.Valid() && (v.cols, v.rows) == (m.cols, m.rows) && HasLetters(w, mark)
    requires Indistinct(w, m, Client(w, v, m))
    ensures Carries(v, m) && Settles(w, m)
  {
    var c, ground := Client(w, v, m), m.(parse := Ground);
    ClientState(w, v, m);
    AlikeIffCarried(w, v, m);
    hide Client, Carries, Alike, GridOk;
    if m.parse.Escape? || m.parse.Csi? { SwallowsShow(w, m, c); }
    IndistinctIsAlike(w, m, c, mark);
    assert c.(parse := Ground) == c;
    if m.parse.Multibyte? { MustSettle(w, m, c, mark); }
  }

  /** Such as an overlong lead byte, which no continuation makes a character of. */
  lemma OverlongSettles(w: Widths, m: Vt)
    requires m.Valid() && m.parse == Multibyte(1, 0x80, 0)
    ensures Settles(w, m)
  {
    forall tails: seq<byte> ensures !Completes(m.parse, tails) {
      if |tails| == 1 && IsTail(tails[0]) {
        assert tails[1..] == [] && Spelled(0, tails) == tails[0] as int - 0x80;
      }
    }
  }

  // ------------------------------------------------------- what is not carried

  /** A pen that was not plain is lost, and the next character shows it. */
  lemma PenIsLost(w: Widths, v: Vt, m: Vt)
    requires Kept(w, m) && v.Valid() && (v.cols, v.rows) == (m.cols, m.rows) && w('x') == One && m.pen != PLAIN
    ensures var bytes := AtThen(0, 0, 'x'); !SameScreen(Run(w, Client(w, v, m), bytes).grid, Run(w, m, bytes).grid)
  {
    ClientState(w, v, m);
    hide Client;
    PenShows(w, m, Client(w, v, m), AtThen(0, 0, 'x'));
  }

  /** A wrap left pending is lost: a letter other than the one it is pending on shows
      it, by landing in the last column instead of on the next line. */
  lemma WrapIsLost(w: Widths, v: Vt, m: Vt)
    requires Kept(w, m) && v.Valid() && (v.cols, v.rows) == (m.cols, m.rows) && m.cols > 1
    requires w('x') == w('y') == One && m.wrap && m.parse == Ground
    ensures var bytes := [Other(Edge(m)) as int];
            !SameScreen(Run(w, Client(w, v, m), bytes).grid, Run(w, m, bytes).grid)
  {
    ClientState(w, v, m);
    hide Client, GridOk;
    WrapShows(w, m, Client(w, v, m), Other(Edge(m)));
  }

  /** What was behind an alternate screen is lost: leaving it shows the client what it
      had there itself, and puts its cursor where that was, which is right exactly
      when it is what the session had. */
  lemma MainIsLost(w: Widths, v: Vt, m: Vt)
    requires Kept(w, m) && v.Valid() && (v.cols, v.rows) == (m.cols, m.rows) && m.alt
    ensures var a, b := Run(w, m, ALT_OFF), Run(w, Client(w, v, m), ALT_OFF);
            && (SameScreen(b.grid, a.grid) <==> SameScreen(Behind(v), m.other))
            && ((b.row, b.col) == (a.row, a.col) <==> m.saved == (v.row, v.col))
  {
    ClientState(w, v, m);
    hide Client, Run, SameScreen;
    RunAltOff(w, m);
    RunAltOff(w, Client(w, v, m));
  }
}
