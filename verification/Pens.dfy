/** The SGR a replay writes for a cell sets exactly that cell's attributes and
    colours, whatever the pen was before: the arguments of 38 and 48 are never
    taken for attributes, nor the other way round. */
module Pens {
  import opened Vt
  import opened Replay

  ghost function Flags(attrs: set<Attr>, k: nat): set<Attr>
    decreases 8 - k, attrs
  {
    if k >= 8 then {} else (if TABLE[k].0 in attrs then {TABLE[k].0} else {}) + Flags(attrs, k + 1)
  }

  lemma TableCodes(pen: Pen, k: nat)
    requires k < 8
    ensures 0 < TABLE[k].1 < 10 && PlainCode(pen, TABLE[k].1) == pen.(attrs := pen.attrs + {TABLE[k].0})
  {
    assert k == 0 || k == 1 || k == 2 || k == 3 || k == 4 || k == 5 || k == 6 || k == 7;
  }

  lemma {:induction false} FlagsIn(attrs: set<Attr>, k: nat, a: Attr)
    ensures a in Flags(attrs, k) <==> a in attrs && exists j :: k <= j < 8 && TABLE[j].0 == a
    decreases 8 - k
  {
    if k < 8 {
      FlagsIn(attrs, k + 1, a);
    }
  }

  lemma AllFlags(attrs: set<Attr>)
    ensures Flags(attrs, 0) == attrs
  {
    forall a: Attr ensures a in Flags(attrs, 0) <==> a in attrs {
      FlagsIn(attrs, 0, a);
      assert TABLE[0].0 == Bold && TABLE[1].0 == Dim && TABLE[2].0 == Italic && TABLE[3].0 == Underline;
      assert TABLE[4].0 == Blink && TABLE[5].0 == Inverse && TABLE[6].0 == Invisible && TABLE[7].0 == Strikethrough;
    }
  }

  lemma ApplyCode(pen: Pen, code: nat, rest: seq<nat>)
    requires code < 10
    ensures ApplySgr(pen, [code] + rest) == ApplySgr(PlainCode(pen, code), rest)
  {
    hide PlainCode, HighCode;
    assert ([code] + rest)[1..] == rest;
  }

  lemma {:induction false} ApplyAttrs(attrs: set<Attr>, k: nat, pen: Pen, rest: seq<nat>)
    ensures ApplySgr(pen, AttrCodes(attrs, k) + rest) == ApplySgr(pen.(attrs := pen.attrs + Flags(attrs, k)), rest)
    decreases 8 - k
  {
    if k >= 8 {
      assert [] + rest == rest && pen.attrs + {} == pen.attrs;
    } else if TABLE[k].0 in attrs {
      hide ApplySgr, PlainCode;
      var (flag, code) := TABLE[k];
      TableCodes(pen, k);
      assert AttrCodes(attrs, k) + rest == [code] + (AttrCodes(attrs, k + 1) + rest);
      ApplyCode(pen, code, AttrCodes(attrs, k + 1) + rest);
      ApplyAttrs(attrs, k + 1, pen.(attrs := pen.attrs + {flag}), rest);
      assert pen.attrs + {flag} + Flags(attrs, k + 1) == pen.attrs + Flags(attrs, k);
    } else {
      assert AttrCodes(attrs, k) == AttrCodes(attrs, k + 1);
      ApplyAttrs(attrs, k + 1, pen, rest);
      assert Flags(attrs, k) == Flags(attrs, k + 1);
    }
  }

  lemma ApplyColor(c: Color, ground: bool, pen: Pen, rest: seq<nat>)
    ensures ApplySgr(pen, ColorCodes(c, ground) + rest)
            == ApplySgr(if c == Default then pen else Dye(pen, ground, c), rest)
  {
    hide PlainCode, HighCode;
    var codes := ColorCodes(c, ground) + rest;
    match c
    case Default => assert codes == rest;
    case Indexed(i) => assert codes[3..] == rest;
    case Rgb(r, g, b) => assert codes[5..] == rest;
  }

  lemma SgrRoundTrip(before: Pen, pen: Pen)
    ensures ApplySgr(before, SgrCodes(pen)) == pen
  {
    var colours := ColorCodes(pen.fg, false) + ColorCodes(pen.bg, true);
    assert SgrCodes(pen)[1..] == Codes(pen);
    assert ApplySgr(before, SgrCodes(pen)) == ApplySgr(PLAIN, Codes(pen));
    ApplyAttrs(pen.attrs, 0, PLAIN, colours);
    AllFlags(pen.attrs);
    var inked := PLAIN.(attrs := pen.attrs);
    assert PLAIN.attrs + pen.attrs == pen.attrs;
    ApplyColor(pen.fg, false, inked, ColorCodes(pen.bg, true));
    var faced := inked.(fg := pen.fg);
    ApplyColor(pen.bg, true, faced, []);
    assert ColorCodes(pen.bg, true) + [] == ColorCodes(pen.bg, true);
  }
}
