/** What the optimised printer leaves out, and that it leaves out no more
    (devpipe/src/replay.rs). */
module Frugality {
  import opened Basics
  import opened Utf8
  import opened Vt
  import opened Replay
  import opened Screens

  /** A cell at the end of a row is left out exactly when it is a space that, but for a
      combining mark on it, looks like a cell of a cleared screen: whatever its text
      colour, and not when it is underlined, inverted or on a background. */
  lemma BlankIffUnseen(c: Cell)
    ensures Blank(c) <==> c.ch == ' ' && !c.spacer && Look(c.(zw := '\0')) == Look(BlankCell(PLAIN))
  {}

  /** And all of those are, from the last cell that is not one. */
  lemma {:induction false} EndIs(row: Row, e: nat)
    requires e <= |row|
    ensures End(row) == e <==> (forall i :: e <= i < |row| ==> Blank(row[i])) && (e > 0 ==> !Blank(row[e - 1]))
  {
    hide Blank;
    if End(row) < e && e > 0 { assert Blank(row[e - 1]); }
    if e < End(row) { assert !Blank(row[End(row) - 1]); }
  }

  /** A row of nothing but those is not mentioned at all. */
  lemma BlankRowIsNothing(row: Row, r: nat)
    ensures Line(row, r, false) == [] <==> forall i :: 0 <= i < |row| ==> Blank(row[i])
  {
    hide Blank, Paint;
    EndIs(row, 0);
    if End(row) > 0 { assert !Blank(row[End(row) - 1]); }
  }

  /** The characters of some cells, with no pens between them. */
  function Glyphs(row: Row, i: nat, end: nat): seq<byte>
    requires i <= end <= |row|
    decreases end - i
  {
    if i == end then [] else (if row[i].spacer then [] else Glyph(row[i])) + Glyphs(row, i + 1, end)
  }

  predicate AllIn(row: Row, i: nat, end: nat, pen: Pen)
    requires i <= end <= |row|
  {
    forall k :: i <= k < end && !row[k].spacer ==> PenOf(row[k]) == pen
  }

  /** Cells of one pen are written with that pen once, before the first of them, and not
      at all if it is the last one written; the pen is not forgotten over wide
      characters. */
  lemma {:induction false} OnePenOnce(row: Row, i: nat, end: nat, last: Option<Pen>, pen: Pen)
    requires i <= end <= |row| && AllIn(row, i, end, pen)
    ensures Paint(row, i, end, last, false)
            == (if last == Some(pen) || forall k :: i <= k < end ==> row[k].spacer then [] else SgrBytes(pen))
               + Glyphs(row, i, end)
    decreases end - i
  {
    hide SgrBytes, Glyph;
    if i < end {
      if row[i].spacer {
        OnePenOnce(row, i + 1, end, last, pen);
        assert (forall k :: i <= k < end ==> row[k].spacer) <==> forall k :: i + 1 <= k < end ==> row[k].spacer;
        assert [] + Glyphs(row, i + 1, end) == Glyphs(row, i + 1, end);
      } else {
        OnePenOnce(row, i + 1, end, Some(pen), pen);
        assert !row[i].spacer;
        assert [] + Glyphs(row, i + 1, end) == Glyphs(row, i + 1, end);
        var head := if last == Some(pen) then [] else SgrBytes(pen);
        assert head + Glyph(row[i]) + Glyphs(row, i + 1, end) == head + (Glyph(row[i]) + Glyphs(row, i + 1, end));
      }
    }
  }

  /** So a row in one pen costs one SGR, whatever the pen: a plain one is written too. */
  lemma UniformRow(row: Row, r: nat, pen: Pen)
    requires End(row) > 0 && AllIn(row, 0, End(row), pen) && !row[End(row) - 1].spacer
    ensures Line(row, r, false)
            == Sequence(false, [r + 1, 1], 'H' as int) + (SgrBytes(pen) + Glyphs(row, 0, End(row))) + PEN_OFF
  {
    hide Paint, SgrBytes, Glyphs, Sequence, End;
    OnePenOnce(row, 0, End(row), None, pen);
  }
}
