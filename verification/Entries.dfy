/** What a line of the host's secrets has to look like (`parse` and `valid_key` in
    devpipe/src/secrets.rs): the names that are allowed, which lines are entries, and
    what their values come to. */
module Entries {
  import opened Basics
  import opened Text
  import opened Secrets

  // ------------------------------------------------------------------- the names

  const DIGITS := "0123456789"
  const CAPITALS := "ABCDEFGHIJKLMNOPQRSTUVWXYZ"
  const LETTERS := "abcdefghijklmnopqrstuvwxyz"

  /** One of the 63 characters of a name. */
  predicate Allowed(c: char) { c in CAPITALS || c in LETTERS || c in DIGITS || c == '_' }

  lemma DigitIs(c: char)
    ensures '0' <= c <= '9' <==> c in DIGITS
  {
    if '0' <= c <= '9' { assert DIGITS[c as int - 48] == c; }
  }

  lemma CapitalIs(c: char)
    ensures 'A' <= c <= 'Z' <==> c in CAPITALS
  {
    if 'A' <= c <= 'Z' { assert CAPITALS[c as int - 65] == c; }
  }

  lemma LetterIs(c: char)
    ensures 'a' <= c <= 'z' <==> c in LETTERS
  {
    if 'a' <= c <= 'z' { assert LETTERS[c as int - 97] == c; }
  }

  lemma WordIs(c: char)
    ensures IsWord(c) <==> Allowed(c)
  {
    DigitIs(c);
    CapitalIs(c);
    LetterIs(c);
  }

  /** A name is accepted exactly when it is not empty, does not start with a digit and
      holds nothing but those characters; and refused for the first of these that it
      fails. */
  lemma NameIff(key: string)
    ensures ValidKey(key).Ok?
            <==> key != "" && key[0] !in DIGITS && forall i :: 0 <= i < |key| ==> Allowed(key[i])
    ensures ValidKey(key) == Err(NoName) <==> key == ""
    ensures ValidKey(key) == Err(LeadingDigit) <==> key != "" && key[0] in DIGITS
    ensures ValidKey(key) == Err(BadCharacter)
            <==> key != "" && key[0] !in DIGITS && exists i :: 0 <= i < |key| && !Allowed(key[i])
  {
    hide IsWord, Allowed;
    if key != "" { DigitIs(key[0]); }
    forall i | 0 <= i < |key| ensures IsWord(key[i]) <==> Allowed(key[i]) { WordIs(key[i]); }
  }

  /** Such as the name of a key for a service, underscores, digits and all. */
  lemma UnderscoresAreFine(file: File, value: string)
    requires '\n' !in value
    ensures var name := "ANTHROPIC_API_KEY_2";
            && Settable(name, value)
            && var after := AsMap(Loaded(AfterSet(file, name, value)));
            name in after && after[name] == Clean(value)
  {
    var name := "ANTHROPIC_API_KEY_2";
    assert Settable(name, value);
    hide *;
    SetReadsBack(file, name, value);
  }

  // ------------------------------------------------------------------ the values

  lemma TrimPadded(a: string, s: string, b: string)
    requires AllWhite(a) && AllWhite(b)
    ensures Trim(a + s + b) == Trim(s)
  {
    hide Trim, IsWhite;
    TrimIs(s, Trim(s));
    var x, y :| AllWhite(x) && AllWhite(y) && s == x + Trim(s) + y;
    assert AllWhite(a + x) && AllWhite(y + b) && a + s + b == (a + x) + Trim(s) + (y + b);
    TrimIs(a + s + b, Trim(s));
  }

  /** What is between two quotes of a kind is kept as it is, white space and all; a value
      that is not so wrapped only loses the white space around it. */
  lemma CleanIs(a: string, quote: char, x: string, b: string, v: string)
    requires AllWhite(a) && AllWhite(b) && quote in {'"', '\''}
    ensures Clean(a + ([quote] + x + [quote]) + b) == x
    ensures (forall q, y :: q in {'"', '\''} ==> Trim(v) != [q] + y + [q]) ==> Clean(v) == Trim(v)
  {
    hide Trim;
    var wrapped := [quote] + x + [quote];
    TrimPadded(a, wrapped, b);
    TrimFixed(wrapped);
    assert wrapped[1..|wrapped| - 1] == x;
    var t := Trim(v);
    if Unquote(t) != t {
      assert t == [t[0]] + t[1..|t| - 1] + [t[0]];
    }
  }

  // ----------------------------------------------------------------- the entries

  /** A line that, but for white space around it and around its name, is the name, an
      `=`, and anything at all after it, which cleaned is the value. */
  ghost predicate Spells(line: string, key: string, value: string) {
    exists a, b, rest :: IsLine(line, a, key, b, rest) && value == Clean(rest)
  }

  predicate IsLine(line: string, a: string, key: string, b: string, rest: string) {
    AllWhite(a) && AllWhite(b) && line == a + key + b + ['='] + rest
  }

  /** Those are the entries, if the name is allowed: no other line is one, and each of
      them is that one. */
  lemma EntryIff(line: string, key: string, value: string)
    ensures Entry(line) == Some((key, value)) <==> ValidKey(key).Ok? && Spells(line, key, value)
  {
    hide Entry, Clean, ValidKey, IsLine;
    if Entry(line) == Some((key, value)) {
      var a, b, rest := EntryParts(line, key, value);
      assert IsLine(line, a, key, b, rest);
    }
    if ValidKey(key).Ok? && Spells(line, key, value) {
      var a, b, rest :| IsLine(line, a, key, b, rest) && value == Clean(rest);
      PartsAreEntry(line, a, key, b, rest);
    }
  }

  lemma EntrySplits(line: string, key: string, value: string)
    requires Entry(line) == Some((key, value))
    ensures SplitOnce(Trim(line), '=').Some? && ValidKey(key).Ok?
    ensures var (x, y) := SplitOnce(Trim(line), '=').value; key == Trim(x) && value == Clean(y)
  {
    hide Trim, Clean, SplitOnce, ValidKey;
  }

  lemma SplitsIsEntry(line: string, x: string, y: string)
    requires Trim(line) != "" && Trim(line)[0] != '#'
    requires SplitOnce(Trim(line), '=') == Some((x, y)) && ValidKey(Trim(x)).Ok?
    ensures Entry(line) == Some((Trim(x), Clean(y)))
  {
    hide Trim, Clean, SplitOnce, ValidKey;
  }

  lemma WhiteAround(s: string) returns (a: string, b: string)
    ensures AllWhite(a) && AllWhite(b) && s == a + Trim(s) + b
  {
    hide Trim, AllWhite, Unpadded;
    TrimIs(s, Trim(s));
    a, b :| AllWhite(a) && AllWhite(b) && s == a + Trim(s) + b;
  }

  lemma EntryParts(line: string, key: string, value: string) returns (a: string, b: string, rest: string)
    requires Entry(line) == Some((key, value))
    ensures ValidKey(key).Ok? && IsLine(line, a, key, b, rest) && value == Clean(rest)
  {
    hide Entry, Trim, Clean, SplitOnce, ValidKey, AllWhite;
    EntrySplits(line, key, value);
    var (x, y) := SplitOnce(Trim(line), '=').value;
    SplitOnceIs(Trim(line), '=', x, y);
    var p, q := WhiteAround(line);
    var c, d := WhiteAround(x);
    a, b, rest := p + c, d, y + q;
    WhiteBoth(p, c);
    Regrouped(p, c, key, d, y, q);
    CleanPadded(y, q);
  }

  lemma Regrouped(p: string, c: string, key: string, d: string, y: string, q: string)
    ensures p + (c + key + d + ['='] + y) + q == p + c + key + d + ['='] + (y + q)
  {}

  lemma CleanPadded(y: string, q: string)
    requires AllWhite(q)
    ensures Clean(y + q) == Clean(y)
  {
    hide Trim, AllWhite, Unquote;
    WhiteNone();
    TrimPadded("", y, q);
    assert "" + y + q == y + q;
  }

  lemma WhiteBoth(a: string, b: string)
    requires AllWhite(a) && AllWhite(b)
    ensures AllWhite(a + b)
  {}

  lemma WhiteNone()
    ensures AllWhite("")
  {}

  lemma PartsAreEntry(line: string, a: string, key: string, b: string, rest: string)
    requires ValidKey(key).Ok? && IsLine(line, a, key, b, rest)
    ensures Entry(line) == Some((key, Clean(rest)))
  {
    hide Entry, ValidKey, Trim, Clean, SplitOnce, TrimEnd;
    var name := key + b;
    WordIsPlain(key);
    WordTrims(key);
    NameHolds(key, b);
    LineTrims(line, a, key, b, rest);
    SplitPlain(name, TrimEnd(rest));
    NameTrims(key, b);
    CleanTrimmed(rest);
    SplitsIsEntry(line, name, TrimEnd(rest));
  }

  lemma LineTrims(line: string, a: string, key: string, b: string, rest: string)
    requires IsLine(line, a, key, b, rest) && key != "" && !IsWhite(key[0]) && key[0] != '#'
    ensures Trim(line) == key + b + ['='] + TrimEnd(rest) && Trim(line) != "" && Trim(line)[0] != '#'
  {
    hide Trim, TrimEnd, AllWhite, IsWhite;
    var body := key + b + ['='] + rest;
    assert line == a + body + "" && (key + b)[0] == key[0];
    WhiteNone();
    TrimPadded(a, body, "");
    TrimPlain(key + b, rest);
    assert (key + b + ['='] + TrimEnd(rest))[0] == key[0];
  }

  lemma NameTrims(key: string, b: string)
    requires AllWhite(b) && Trim(key) == key
    ensures Trim(key + b) == key
  {
    hide Trim, AllWhite;
    WhiteNone();
    TrimPadded("", key, b);
    assert "" + key + b == key + b;
  }

  lemma CleanTrimmed(rest: string)
    ensures Clean(TrimEnd(rest)) == Clean(rest)
  {
    hide Trim, TrimEnd, Unquote;
    TrimEndTrim(rest);
  }

  lemma NameHolds(key: string, b: string)
    requires key != "" && '=' !in key && AllWhite(b)
    ensures '=' !in key + b
  {
    forall i | 0 <= i < |b| ensures b[i] != '=' { assert IsWhite(b[i]); }
  }

  // ------------------------------------------------------------------- the lines

  /** A text is its lines: each ends at a line feed, and loses one carriage return
      before it; what follows the last one is a line if there is any of it. */
  lemma LinesIs(a: string, rest: string)
    requires '\n' !in a
    ensures Lines(a + ['\n'] + rest)
            == [if a != "" && a[|a| - 1] == '\r' then a[..|a| - 1] else a] + Lines(rest)
    ensures Lines(a) == if a == "" then [] else [a]
  {
    var text := a + ['\n'] + rest;
    assert text[..|a|] == a && text[|a| + 1..] == rest;
    FindIs(text, '\n', |a|);
  }
}
