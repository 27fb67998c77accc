/** What the terminal makes of the sequences and characters a replay is built
    from, one at a time. */
module Sequences {
  import opened Basics
  import opened Utf8
  import opened Text
  import opened Vt
  import opened Replay

  /** Decimal parameters are read back as the number that was written. */
  lemma {:induction false} RunDecimal(w: Widths, v: Vt, n: nat)
    requires v.Valid() && v.parse.Csi? && v.parse.cur == 0
    ensures Run(w, v, Decimal(n)) == v.(parse := v.parse.(cur := n))
    decreases n
  {
    hide Run, Step;
    StepDigit(w, v.(parse := v.parse.(cur := n / 10)), n % 10);
    if n < 10 {
      RunOne(w, v, 48 + n);
    } else {
      RunDecimal(w, v, n / 10);
      RunConcat(w, v, Decimal(n / 10), [48 + n % 10]);
      RunOne(w, v.(parse := v.parse.(cur := n / 10)), 48 + n % 10);
    }
  }

  lemma StepDigit(w: Widths, v: Vt, d: nat)
    requires v.Valid() && v.parse.Csi? && d < 10
    ensures Step(w, v, 48 + d) == v.(parse := v.parse.(cur := v.parse.cur * 10 + d))
  {}

  lemma RunOne(w: Widths, v: Vt, b: byte)
    requires v.Valid()
    ensures Run(w, v, [b]) == Step(w, v, b)
  {
    hide Step;
    assert [b][1..] == [];
    assert Run(w, Step(w, v, b), []) == Step(w, v, b);
  }

  function Gathered(p: Parse): seq<nat>
    requires p.Csi?
  {
    p.done + [p.cur]
  }

  lemma StepSeparator(w: Widths, v: Vt)
    requires v.Valid() && v.parse.Csi?
    ensures Step(w, v, ';' as int) == v.(parse := Csi(v.parse.private, Gathered(v.parse), 0))
  {}

  lemma {:induction false} RunTail(w: Widths, v: Vt, params: seq<nat>)
    requires v.Valid() && v.parse.Csi?
    ensures var r := Run(w, v, Tail(params));
            && r == v.(parse := r.parse) && r.parse.Csi? && r.parse.private == v.parse.private
            && Gathered(r.parse) == Gathered(v.parse) + params
    decreases |params|
  {
    hide Step;
    if params == [] {
      assert Run(w, v, []) == v;
    } else {
      var semi := v.(parse := Csi(v.parse.private, Gathered(v.parse), 0));
      StepSeparator(w, v);
      RunOne(w, v, ';' as int);
      RunConcat(w, v, [';' as int], Decimal(params[0]));
      RunDecimal(w, semi, params[0]);
      var next := semi.(parse := semi.parse.(cur := params[0]));
      RunConcat(w, v, Param(params[0]), Tail(params[1..]));
      RunTail(w, next, params[1..]);
      assert Tail(params) == Param(params[0]) + Tail(params[1..]);
      assert Gathered(next.parse) + params[1..] == Gathered(v.parse) + params;
    }
  }

  function Given(params: seq<nat>): (r: seq<nat>)
    ensures r != []
  {
    if params == [] then [0] else params
  }

  /** The parameter bytes between the introducer and the final byte. */
  lemma RunParams(w: Widths, v: Vt, private: bool, params: seq<nat>)
    requires v.Valid() && v.parse == Csi(private, [], 0)
    ensures var r := Run(w, v, if params == [] then [] else Decimal(params[0]) + Tail(params[1..]));
            && r == v.(parse := r.parse) && r.parse.Csi? && r.parse.private == private
            && Gathered(r.parse) == Given(params)
  {
    hide Step;
    if params == [] {
      assert Run(w, v, []) == v;
    } else {
      RunDecimal(w, v, params[0]);
      RunConcat(w, v, Decimal(params[0]), Tail(params[1..]));
      RunTail(w, v.(parse := v.parse.(cur := params[0])), params[1..]);
      assert [] + [params[0]] + params[1..] == params;
    }
  }

  lemma RunIntroducer(w: Widths, v: Vt, private: bool)
    requires v.Valid() && v.parse == Ground
    ensures Run(w, v, [ESC, '[' as int] + (if private then ['?' as int] else [])) == v.(parse := Csi(private, [], 0))
  {
    var v1 := v.(parse := Escape);
    var v2 := v.(parse := Csi(false, [], 0));
    RunOne(w, v, ESC);
    RunOne(w, v1, '[' as int);
    RunConcat(w, v, [ESC], ['[' as int]);
    assert [ESC] + ['[' as int] == [ESC, '[' as int];
    if private {
      RunOne(w, v2, '?' as int);
      RunConcat(w, v, [ESC, '[' as int], ['?' as int]);
    } else {
      assert [ESC, '[' as int] + [] == [ESC, '[' as int];
    }
  }

  /** Any control sequence, whatever its parameters, is dispatched once and with
      exactly the parameters it was written with. */
  lemma RunSequence(w: Widths, v: Vt, private: bool, params: seq<nat>, final: byte)
    requires v.Valid() && v.parse == Ground && 0x40 <= final < 0x7F
    ensures Run(w, v, Sequence(private, params, final)) == Dispatch(v, private, Given(params), final)
  {
    hide Run;
    var intro := [ESC, '[' as int] + (if private then ['?' as int] else []);
    var body := if params == [] then [] else Decimal(params[0]) + Tail(params[1..]);
    var v1 := v.(parse := Csi(private, [], 0));
    var v2 := Run(w, v1, body);
    RunIntroducer(w, v, private);
    RunParams(w, v1, private, params);
    RunConcat(w, v, intro, body);
    RunConcat(w, v, intro + body, [final]);
    RunOne(w, v2, final);
    assert v2.(parse := Ground) == v;
  }

  lemma NamedSequences()
    ensures HOME == Sequence(false, [], 'H' as int)
    ensures CLEAR == Sequence(false, [2], 'J' as int)
    ensures PEN_OFF == Sequence(false, [], 'm' as int)
  {
    assert Tail([2][1..]) == [];
  }

  lemma NamedModes()
    ensures ALT_ON == Sequence(true, [1049], 'h' as int)
    ensures SHOW == Sequence(true, [25], 'h' as int)
    ensures HIDE == Sequence(true, [25], 'l' as int)
    ensures PASTE_ON == Sequence(true, [2004], 'h' as int)
  {
    ModeDigits();
    hide Decimal, Sequence;
    OneParam(1049, 'h' as int);
    OneParam(25, 'h' as int);
    OneParam(25, 'l' as int);
    OneParam(2004, 'h' as int);
  }

  lemma ModeDigits()
    ensures Decimal(1049) == ['1' as int, '0' as int, '4' as int, '9' as int]
    ensures Decimal(2004) == ['2' as int, '0' as int, '0' as int, '4' as int]
    ensures Decimal(25) == ['2' as int, '5' as int]
  {}

  lemma OneParam(n: nat, final: byte)
    ensures Sequence(true, [n], final) == [ESC, '[' as int, '?' as int] + Decimal(n) + [final]
  {
    hide Decimal;
    assert Tail([n][1..]) == [];
  }

  lemma StepLead(w: Widths, v: Vt, b: byte)
    requires v.Valid() && v.parse == Ground && 0xC0 <= b < 0xF8
    ensures var (tails, bits) := Lead(b).value; Step(w, v, b) == v.(parse := Multibyte(tails, Least(tails), bits))
  {}

  lemma StepTail(w: Widths, v: Vt, b: byte)
    requires v.Valid() && v.parse.Multibyte? && v.parse.need > 1 && IsTail(b)
    ensures Step(w, v, b)
            == v.(parse := Multibyte(v.parse.need - 1, v.parse.least, v.parse.acc * 64 + (b - 0x80)))
  {}

  lemma StepLast(w: Widths, v: Vt, b: byte, c: char)
    requires v.Valid() && v.parse.Multibyte? && v.parse.need == 1 && IsTail(b)
    requires v.parse.acc * 64 + (b - 0x80) == c as int && v.parse.least <= c as int
    ensures Step(w, v, b) == Print(w, v.(parse := Ground), c)
  {}

  lemma StepAscii(w: Widths, v: Vt, c: char)
    requires v.Valid() && v.parse == Ground && !IsControl(c) && c as int < 0x80
    ensures Step(w, v, c as int) == Print(w, v, c)
  {
    assert v.(parse := Ground) == v;
  }

  /** UTF-8 text prints the character it encodes. */
  lemma RunChar(w: Widths, v: Vt, c: char)
    requires v.Valid() && v.parse == Ground && !IsControl(c)
    ensures Run(w, v, EncodeChar(c)) == Print(w, v, c)
  {
    hide Step, Print, Run;
    var n := c as int;
    if n < 0x80 {
      StepAscii(w, v, c);
      RunOne(w, v, n);
    } else if n < 0x800 {
      Digits(n);
      RunCharTwo(w, v, c, 0xC0 + n / 64, 0x80 + n % 64);
    } else if n < 0x10000 {
      Digits(n);
      RunCharThree(w, v, c, 0xE0 + n / 4096, 0x80 + n / 64 % 64, 0x80 + n % 64);
    } else {
      Digits(n);
      Quotients(n);
      RunCharFour(w, v, c, 0xF0 + n / 262144, 0x80 + n / 4096 % 64, 0x80 + n / 64 % 64, 0x80 + n % 64,
                  n / 262144, n / 4096, n / 64);
    }
  }

  lemma Quotients(n: nat)
    ensures n / 4096 == n / 262144 * 64 + n / 4096 % 64 && n / 64 == n / 4096 * 64 + n / 64 % 64
  {
    assert n / 262144 == n / 4096 / 64 && n / 4096 == n / 64 / 64;
  }

  lemma RunCharTwo(w: Widths, v: Vt, c: char, a: byte, b: byte)
    requires v.Valid() && v.parse == Ground && 0xC0 <= a < 0xE0 && IsTail(b) && 0x80 <= c as int
    requires (a - 0xC0) * 64 + (b - 0x80) == c as int
    ensures Run(w, v, [a, b]) == Print(w, v, c)
  {
    hide Step, Print, Run;
    var v1 := v.(parse := Multibyte(1, 0x80, a - 0xC0));
    StepLead(w, v, a);
    StepLast(w, v1, b, c);
    assert v1.(parse := Ground) == v;
    RunTwo(w, v, a, b);
  }

  lemma RunCharThree(w: Widths, v: Vt, c: char, a: byte, b: byte, d: byte)
    requires v.Valid() && v.parse == Ground && 0xE0 <= a < 0xF0 && IsTail(b) && IsTail(d) && 0x800 <= c as int
    requires ((a - 0xE0) * 64 + (b - 0x80)) * 64 + (d - 0x80) == c as int
    ensures Run(w, v, [a, b, d]) == Print(w, v, c)
  {
    hide Step, Print, Run;
    var v1 := v.(parse := Multibyte(2, 0x800, a - 0xE0));
    var v2 := v.(parse := Multibyte(1, 0x800, (a - 0xE0) * 64 + (b - 0x80)));
    StepLead(w, v, a);
    StepTail(w, v1, b);
    StepLast(w, v2, d, c);
    assert v2.(parse := Ground) == v;
    RunThree(w, v, a, b, d);
  }

  /** Four bytes, each carrying on the number of the one before. */
  lemma RunCharFour(w: Widths, v: Vt, c: char, a: byte, b: byte, d: byte, e: byte, one: nat, two: nat, three: nat)
    requires v.Valid() && v.parse == Ground && a == 0xF0 + one && one < 8 && IsTail(b) && IsTail(d) && IsTail(e)
    requires two == one * 64 + (b - 0x80) && three == two * 64 + (d - 0x80)
    requires 0x10000 <= c as int == three * 64 + (e - 0x80)
    ensures Run(w, v, [a, b, d, e]) == Print(w, v, c)
  {
    hide Print, Run, Step, Lead, Least;
    BeginFour(w, v, a, b, d, one, two, three);
    LastOf(w, v, three, e, c);
    var v3 := v.(parse := Multibyte(1, 0x10000, three));
    RunOne(w, v3, e);
    RunConcat(w, v, [a, b, d], [e]);
    assert [a, b, d] + [e] == [a, b, d, e];
  }

  lemma BeginFour(w: Widths, v: Vt, a: byte, b: byte, d: byte, one: nat, two: nat, three: nat)
    requires v.Valid() && v.parse == Ground && a == 0xF0 + one && one < 8 && IsTail(b) && IsTail(d)
    requires two == one * 64 + (b - 0x80) && three == two * 64 + (d - 0x80)
    ensures Run(w, v, [a, b, d]) == v.(parse := Multibyte(1, 0x10000, three))
  {
    hide Print, Run, Step, Lead, Least;
    LeadFour(w, v, a);
    StepTail(w, v.(parse := Multibyte(3, 0x10000, one)), b);
    StepTail(w, v.(parse := Multibyte(2, 0x10000, two)), d);
    RunThree(w, v, a, b, d);
  }

  lemma LeadFour(w: Widths, v: Vt, a: byte)
    requires v.Valid() && v.parse == Ground && 0xF0 <= a < 0xF8
    ensures Step(w, v, a) == v.(parse := Multibyte(3, 0x10000, a - 0xF0))
  {
    hide Step;
    StepLead(w, v, a);
  }

  lemma LastOf(w: Widths, v: Vt, acc: nat, e: byte, c: char)
    requires v.Valid() && v.parse == Ground && IsTail(e) && 0x10000 <= c as int && acc * 64 + (e - 0x80) == c as int
    ensures Step(w, v.(parse := Multibyte(1, 0x10000, acc)), e) == Print(w, v, c)
  {
    hide Step, Print;
    StepLast(w, v.(parse := Multibyte(1, 0x10000, acc)), e, c);
    assert v.(parse := Multibyte(1, 0x10000, acc)).(parse := Ground) == v;
  }

  lemma RunTwo(w: Widths, v: Vt, a: byte, b: byte)
    requires v.Valid()
    ensures Run(w, v, [a, b]) == Step(w, Step(w, v, a), b)
  {
    hide Step, Run;
    RunOne(w, v, a);
    RunOne(w, Step(w, v, a), b);
    RunConcat(w, v, [a], [b]);
    assert [a] + [b] == [a, b];
  }

  lemma RunThree(w: Widths, v: Vt, a: byte, b: byte, c: byte)
    requires v.Valid()
    ensures Run(w, v, [a, b, c]) == Step(w, Step(w, Step(w, v, a), b), c)
  {
    hide Step, Run;
    RunTwo(w, v, a, b);
    RunOne(w, Step(w, Step(w, v, a), b), c);
    RunConcat(w, v, [a, b], [c]);
    assert [a, b] + [c] == [a, b, c];
  }
}
