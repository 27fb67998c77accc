/** The host's secrets (devpipe/src/secrets.rs): a file of `KEY=value` lines that
    is read afresh every time and rewritten whole by every change. */
module Secrets {
  import opened Basics
  import opened Text
  import opened Utf8

  type Pair = (string, string)

  datatype Error = NoName | LeadingDigit | BadCharacter | Newline | NotSaved

  predicate IsDigit(c: char) { '0' <= c <= '9' }

  predicate IsWord(c: char) { IsDigit(c) || 'a' <= c <= 'z' || 'A' <= c <= 'Z' || c == '_' }

  predicate Wordy(key: string) { forall i :: 0 <= i < |key| ==> IsWord(key[i]) }

  function ValidKey(key: string): Result<(), Error> {
    if key == "" then Err(NoName)
    else if IsDigit(key[0]) then Err(LeadingDigit)
    else if !Wordy(key) then Err(BadCharacter)
    else Ok(())
  }

  // ------------------------------------------------------------ reading a file

  /** `str::lines`: the text between line feeds, less one carriage return each. */
  function Lines(text: string): seq<string>
    decreases |text|
  {
    var i := Find(text, '\n');
    if i == |text| then (if text == "" then [] else [text])
    else [StripReturn(text[..i])] + Lines(text[i + 1..])
  }

  function StripReturn(line: string): string {
    if line != "" && line[|line| - 1] == '\r' then line[..|line| - 1] else line
  }

  predicate Wrapped(v: string, q: char) { |v| >= 2 && v[0] == q && v[|v| - 1] == q }

  function Unquote(v: string): (r: string)
    ensures |r| <= |v|
  {
    if Wrapped(v, '"') || Wrapped(v, '\'') then v[1..|v| - 1] else v
  }

  /** What a value reads back as. */
  function Clean(v: string): string { Unquote(Trim(v)) }

  function Entry(line: string): Option<Pair> {
    var trimmed := Trim(line);
    if trimmed == "" || trimmed[0] == '#' then None else
    match SplitOnce(trimmed, '=')
    case None => None
    case Some((key, value)) => if ValidKey(Trim(key)).Ok? then Some((Trim(key), Clean(value))) else None
  }

  function Entries(lines: seq<string>): seq<Pair> {
    if lines == [] then [] else Listed(Entry(lines[0])) + Entries(lines[1..])
  }

  function Parse(text: string): seq<Pair> { Entries(Lines(text)) }

  /** The bytes on the disk, when the file is there. */
  type File = Option<seq<byte>>

  /** A file that is missing, or is not text throughout, holds nothing. */
  function Loaded(file: File): seq<Pair> {
    match file
    case None => []
    case Some(bytes) => match Decode(bytes) case None => [] case Some(text) => Parse(text)
  }

  // ------------------------------------------------------------ writing a file

  function Line(p: Pair): string { p.0 + ['='] + p.1 + ['\n'] }

  function Written(pairs: seq<Pair>): string {
    if pairs == [] then "" else Line(pairs[0]) + Written(pairs[1..])
  }

  function Without(pairs: seq<Pair>, key: string): seq<Pair> {
    if pairs == [] then []
    else (if pairs[0].0 == key then [] else [pairs[0]]) + Without(pairs[1..], key)
  }

  /** What `set` does to the file when it is allowed to. */
  function AfterSet(file: File, key: string, value: string): File {
    Some(Encode(Written(Without(Loaded(file), key) + [(key, value)])))
  }

  function AfterRemove(file: File, key: string): File {
    if |Without(Loaded(file), key)| == |Loaded(file)| then file else Some(Encode(Written(Without(Loaded(file), key))))
  }

  lemma LoadedText(text: string)
    ensures Loaded(Some(Encode(text))) == Parse(text)
  {
    DecodeIffEncoded(Encode(text), text);
    hide Decode, Encode, Parse;
  }

  lemma WrittenNext(text: string, pairs: seq<Pair>, i: nat)
    requires i < |pairs|
    ensures text + Written(pairs[i..])
         == text + pairs[i].0 + ['='] + pairs[i].1 + ['\n'] + Written(pairs[i + 1..])
  {
    assert pairs[i..][0] == pairs[i] && pairs[i..][1..] == pairs[i + 1..];
    hide Written;
    assert text + (Line(pairs[i]) + Written(pairs[i + 1..])) == text + Line(pairs[i]) + Written(pairs[i + 1..]);
    assert text + Line(pairs[i]) == text + pairs[i].0 + ['='] + pairs[i].1 + ['\n'];
  }

  predicate Settable(key: string, value: string) { ValidKey(key).Ok? && '\n' !in value }

  class Secrets {
    var file: File

    constructor (file: File)
      ensures this.file == file
    {
      this.file := file;
    }

    method ParseLine(raw: string) returns (found: seq<Pair>)
      ensures found == Listed(Entry(raw))
    {
      hide Trim, Clean, ValidKey;
      var line := Trim(raw);
      if line == "" || line[0] == '#' {
        return [];
      }
      var split := SplitOnce(line, '=');
      if split == None {
        return [];
      }
      var (rawKey, rawValue) := split.value;
      var key := Trim(rawKey);
      if ValidKey(key).Err? {
        return [];
      }
      found := [(key, Clean(rawValue))];
    }

    method Load() returns (pairs: seq<Pair>)
      ensures pairs == Loaded(file)
    {
      hide Entry, Lines, Listed, Decode;
      pairs := [];
      if file == None {
        return;
      }
      var text := Decode(file.value);
      if text == None {
        return;
      }
      var lines := Lines(text.value);
      assert Entries(lines[..0]) == [];
      hide Entries;
      for i := 0 to |lines|
        invariant pairs == Entries(lines[..i])
      {
        var found := ParseLine(lines[i]);
        pairs := pairs + found;
        EntriesSnoc(lines[..i], lines[i]);
        assert lines[..i + 1] == lines[..i] + [lines[i]];
      }
      assert lines[..|lines|] == lines;
    }

    /** The new text replaces the old whole, or not at all. */
    method Write(pairs: seq<Pair>, saved: bool) returns (r: Result<(), Error>)
      modifies this
      ensures file == if saved then Some(Encode(Written(pairs))) else old(file)
      ensures r == if saved then Ok(()) else Err(NotSaved)
    {
      var text := "";
      for i := 0 to |pairs|
        invariant file == old(file) && text + Written(pairs[i..]) == Written(pairs)
      {
        WrittenNext(text, pairs, i);
        text := text + pairs[i].0 + ['='] + pairs[i].1 + ['\n'];
      }
      assert pairs[|pairs|..] == [] && text + "" == text;
      if saved {
        file := Some(Encode(text));
        return Ok(());
      }
      r := Err(NotSaved);
    }

    method Set(key: string, value: string, saved: bool) returns (r: Result<(), Error>)
      modifies this
      ensures !Settable(key, value) ==>
                file == old(file) && r == if ValidKey(key).Err? then Err(ValidKey(key).error) else Err(Newline)
      ensures Settable(key, value) ==> file == if saved then AfterSet(old(file), key, value) else old(file)
      ensures Settable(key, value) ==> r == if saved then Ok(()) else Err(NotSaved)
    {
      var valid := ValidKey(key);
      if valid.Err? {
        return Err(valid.error);
      }
      if '\n' in value {
        return Err(Newline);
      }
      var pairs := Load();
      var kept := Filter(pairs, key);
      kept := kept + [(key, value)];
      r := Write(kept, saved);
    }

    method Filter(pairs: seq<Pair>, key: string) returns (kept: seq<Pair>)
      ensures kept == Without(pairs, key)
    {
      kept := [];
      for i := 0 to |pairs|
        invariant kept == Without(pairs[..i], key)
      {
        WithoutSnoc(pairs[..i], pairs[i], key);
        assert pairs[..i + 1] == pairs[..i] + [pairs[i]];
        if pairs[i].0 != key {
          kept := kept + [pairs[i]];
        }
      }
      assert pairs[..|pairs|] == pairs;
    }

    method Remove(key: string, saved: bool) returns (r: Result<bool, Error>)
      modifies this
      ensures file == if saved then AfterRemove(old(file), key) else old(file)
      ensures r == if key !in Keys(Loaded(old(file))) then Ok(false) else if saved then Ok(true) else Err(NotSaved)
    {
      var before := Load();
      var after := Filter(before, key);
      WithoutShrinks(before, key);
      if |after| == |before| {
        return Ok(false);
      }
      var written := Write(after, saved);
      r := if written.Ok? then Ok(true) else Err(NotSaved);
    }
  }

  function Keys(pairs: seq<Pair>): set<string> { set p | p in pairs :: p.0 }

  lemma {:induction false} WithoutShrinks(pairs: seq<Pair>, key: string)
    ensures |Without(pairs, key)| <= |pairs|
    ensures |Without(pairs, key)| == |pairs| <==> key !in Keys(pairs)
    ensures key !in Keys(pairs) ==> Without(pairs, key) == pairs
  {
    if pairs != [] {
      WithoutShrinks(pairs[1..], key);
      assert pairs == [pairs[0]] + pairs[1..];
    }
  }

  lemma {:induction false} EntriesSnoc(lines: seq<string>, line: string)
    ensures Entries(lines + [line]) == Entries(lines) + Listed(Entry(line))
  {
    hide Entry;
    if lines == [] {
      assert lines + [line] == [line] && [line][1..] == [];
    } else {
      assert (lines + [line])[1..] == lines[1..] + [line];
      EntriesSnoc(lines[1..], line);
    }
  }

  // --------------------------------------------------- what is written is read

  predicate Writable(p: Pair) { ValidKey(p.0).Ok? && '\n' !in p.1 }

  lemma {:induction false} TrimEndKeeps(a: string, b: string)
    requires a != "" && !IsWhite(a[|a| - 1])
    ensures TrimEnd(a + b) == a + TrimEnd(b)
    decreases |b|
  {
    if b == "" {
      assert a + b == a;
    } else {
      assert (a + b)[|a + b| - 1] == b[|b| - 1] && (a + b)[..|a + b| - 1] == a + b[..|b| - 1];
      if IsWhite(b[|b| - 1]) { TrimEndKeeps(a, b[..|b| - 1]); }
    }
  }

  lemma {:induction false} TrimStartSnoc(s: string, c: char)
    ensures TrimStart(s + [c]) == if TrimStart(s) == "" then (if IsWhite(c) then "" else [c]) else TrimStart(s) + [c]
  {
    if s == "" {
      assert s + [c] == [c] && [c][1..] == "";
    } else {
      assert (s + [c])[1..] == s[1..] + [c];
      TrimStartSnoc(s[1..], c);
    }
  }

  /** White space at the end of a value does not matter to what it reads back as. */
  lemma TrimSnoc(s: string, c: char)
    requires IsWhite(c)
    ensures Trim(s + [c]) == Trim(s)
  {
    TrimStartSnoc(s, c);
    var t := TrimStart(s);
    if t != "" { assert (t + [c])[..|t|] == t; }
  }

  lemma {:induction false} TrimEndTrim(s: string)
    ensures Trim(TrimEnd(s)) == Trim(s)
    decreases |s|
  {
    if s != "" && IsWhite(s[|s| - 1]) {
      var init := s[..|s| - 1];
      assert s == init + [s[|s| - 1]];
      TrimEndTrim(init);
      TrimSnoc(init, s[|s| - 1]);
    }
  }

  lemma WordChar(c: char)
    requires IsWord(c)
    ensures !IsWhite(c) && c != '#' && c != '=' && c != '\n'
  {}

  lemma WordIsPlain(key: string)
    requires ValidKey(key).Ok?
    ensures key != "" && key[0] != '#' && '=' !in key && '\n' !in key && !IsWhite(key[0])
  {}

  lemma WordTrims(key: string)
    requires ValidKey(key).Ok?
    ensures Trim(key) == key
  {
    TrimFixed(key);
  }

  /** One line, read back: the key, and the value less its ends and its quotes. */
  lemma EntryOfLine(key: string, value: string)
    requires ValidKey(key).Ok?
    ensures Entry(StripReturn(key + ['='] + value)) == Some((key, Clean(value)))
  {
    hide Trim, Entry, ValidKey, Unquote;
    var line := key + ['='] + value;
    var v := StripReturn(value);
    if value != "" && value[|value| - 1] == '\r' {
      assert line[..|line| - 1] == key + ['='] + v;
      assert value == v + ['\r'];
      TrimSnoc(v, '\r');
    }
    assert StripReturn(line) == key + ['='] + v;
    EntryOfPlain(key, v);
  }

  lemma TrimPlain(key: string, v: string)
    requires key != "" && !IsWhite(key[0])
    ensures Trim(key + ['='] + v) == key + ['='] + TrimEnd(v)
  {
    var head := key + ['='];
    TrimEndKeeps(head, v);
    hide TrimEnd;
    assert (head + v)[0] == key[0];
    assert TrimStart(head + v) == head + v;
  }

  lemma SplitPlain(key: string, v: string)
    requires '=' !in key
    ensures SplitOnce(key + ['='] + v, '=') == Some((key, v))
  {
    var line := key + ['='] + v;
    assert line[..|key|] == key && line[|key| + 1..] == v;
    FindIs(line, '=', |key|);
    hide Find;
  }

  lemma EntryOfPlain(key: string, v: string)
    requires ValidKey(key).Ok?
    ensures Entry(key + ['='] + v) == Some((key, Clean(v)))
  {
    hide Trim, TrimEnd, SplitOnce, ValidKey, Unquote, IsWhite;
    WordIsPlain(key);
    WordTrims(key);
    TrimPlain(key, v);
    SplitPlain(key, TrimEnd(v));
    TrimEndTrim(v);
    assert (key + ['='] + TrimEnd(v))[0] == key[0];
  }

  function Cleaned(pairs: seq<Pair>): seq<Pair> {
    if pairs == [] then [] else [(pairs[0].0, Clean(pairs[0].1))] + Cleaned(pairs[1..])
  }

  /** What `write` prints, `parse` reads back, each value cleaned. */
  lemma {:induction false} ParseWritten(pairs: seq<Pair>)
    requires forall p :: p in pairs ==> Writable(p)
    ensures Parse(Written(pairs)) == Cleaned(pairs)
  {
    if pairs == [] {
    } else {
      hide Entry, Clean, StripReturn, ValidKey, Entries, Lines, Written;
      var p := pairs[0];
      assert Writable(p);
      WrittenLines(pairs);
      EntriesCons(StripReturn(p.0 + ['='] + p.1), Lines(Written(pairs[1..])));
      EntryOfLine(p.0, p.1);
      ParseWritten(pairs[1..]);
    }
  }

  lemma WrittenLines(pairs: seq<Pair>)
    requires pairs != [] && Writable(pairs[0])
    ensures Lines(Written(pairs)) == [StripReturn(pairs[0].0 + ['='] + pairs[0].1)] + Lines(Written(pairs[1..]))
  {
    hide StripReturn, ValidKey;
    var p, rest := pairs[0], Written(pairs[1..]);
    var text, body := Written(pairs), p.0 + ['='] + p.1;
    WordIsPlain(p.0);
    assert text == body + ['\n'] + rest;
    hide Written;
    assert text[..|body|] == body && text[|body|] == '\n' && text[|body| + 1..] == rest;
    FindIs(text, '\n', |body|);
  }

  lemma EntriesCons(line: string, rest: seq<string>)
    ensures Entries([line] + rest) == Listed(Entry(line)) + Entries(rest)
  {
    hide Entry;
    assert ([line] + rest)[1..] == rest;
  }

  lemma {:induction false} LinesAreLines(text: string)
    ensures forall l :: l in Lines(text) ==> '\n' !in l
    decreases |text|
  {
    var i := Find(text, '\n');
    if i < |text| {
      LinesAreLines(text[i + 1..]);
      forall l | l in Lines(text) ensures '\n' !in l {
        if l !in Lines(text[i + 1..]) { assert l == StripReturn(text[..i]); }
      }
    } else {
      assert text[..i] == text;
    }
  }

  lemma {:induction false} TrimStartLacks(s: string, c: char)
    requires c !in s
    ensures c !in TrimStart(s)
  {
    if s != "" && IsWhite(s[0]) { TrimStartLacks(s[1..], c); }
  }

  lemma TrimLacks(s: string, c: char)
    requires c !in s
    ensures c !in Trim(s)
  {
    TrimStartLacks(s, c);
  }

  lemma UnquoteLacks(s: string, c: char)
    requires c !in s
    ensures c !in Unquote(s)
  {}

  lemma EntryIsWritable(line: string)
    requires '\n' !in line
    ensures Entry(line).Some? ==> Writable(Entry(line).value)
  {
    hide Trim, Unquote, ValidKey;
    if Entry(line).Some? {
      var trimmed := Trim(line);
      TrimLacks(line, '\n');
      var raw := SplitOnce(trimmed, '=').value.1;
      TrimLacks(raw, '\n');
      UnquoteLacks(Trim(raw), '\n');
    }
  }

  /** A pair that was read was read from some line. */
  lemma {:induction false} EntryOfSome(lines: seq<string>, p: Pair) returns (line: string)
    requires p in Entries(lines)
    ensures line in lines && Entry(line) == Some(p)
  {
    hide Entry;
    if p in Listed(Entry(lines[0])) {
      line := lines[0];
    } else {
      line := EntryOfSome(lines[1..], p);
    }
  }

  lemma LoadedWritable(file: File)
    ensures forall p :: p in Loaded(file) ==> Writable(p)
  {
    if file.Some? && Decode(file.value).Some? {
      var text := Decode(file.value).value;
      hide Decode, Lines, Entries, Entry, Writable;
      LinesAreLines(text);
      forall p | p in Entries(Lines(text)) ensures Writable(p) {
        var line := EntryOfSome(Lines(text), p);
        EntryIsWritable(line);
      }
    }
  }

  /** A value survives being written and read exactly when it has no white space
      at either end and is not wrapped in a pair of quotes. */
  lemma Survives(v: string)
    ensures Clean(v) == v
            <==> (v == "" || (!IsWhite(v[0]) && !IsWhite(v[|v| - 1]))) && !Wrapped(v, '"') && !Wrapped(v, '\'')
  {
    TrimFixed(v);
    TrimLonger(v);
    hide Trim;
  }

  lemma {:induction false} TrimLonger(v: string)
    ensures |Trim(v)| <= |v| && (|Trim(v)| == |v| ==> Trim(v) == v)
  {}

  predicate Kept(v: string) { Clean(v) == v }

  predicate AllKept(pairs: seq<Pair>) { forall p :: p in pairs ==> Kept(p.1) }

  /** A list of pairs is read back unchanged exactly when every value survives. */
  lemma {:induction false} CleanedIffKept(pairs: seq<Pair>)
    ensures Cleaned(pairs) == pairs <==> AllKept(pairs)
  {
    hide Clean;
    if pairs != [] {
      CleanedIffKept(pairs[1..]);
      assert pairs == [pairs[0]] + pairs[1..];
      assert Cleaned(pairs)[1..] == Cleaned(pairs[1..]);
      assert Cleaned(pairs)[0] == (pairs[0].0, Clean(pairs[0].1));
    }
  }

  lemma ReadsBackIffKept(pairs: seq<Pair>)
    requires forall p :: p in pairs ==> Writable(p)
    ensures Parse(Written(pairs)) == pairs <==> AllKept(pairs)
  {
    ParseWritten(pairs);
    CleanedIffKept(pairs);
  }

  // ------------------------------------------------------ as a finite map

  /** What a session is lent: a later line wins. */
  function AsMap(pairs: seq<Pair>): map<string, string> {
    if pairs == [] then map[] else AsMap(pairs[..|pairs| - 1])[pairs[|pairs| - 1].0 := pairs[|pairs| - 1].1]
  }

  lemma {:induction false} AsMapSnoc(pairs: seq<Pair>, p: Pair)
    ensures AsMap(pairs + [p]) == AsMap(pairs)[p.0 := p.1]
  {
    assert (pairs + [p])[..|pairs|] == pairs;
  }

  lemma {:induction false} WithoutSnoc(pairs: seq<Pair>, p: Pair, key: string)
    ensures Without(pairs + [p], key) == Without(pairs, key) + (if p.0 == key then [] else [p])
  {
    if pairs == [] {
      assert pairs + [p] == [p] && [p][1..] == [];
    } else {
      var head := if pairs[0].0 == key then [] else [pairs[0]];
      assert (pairs + [p])[0] == pairs[0] && (pairs + [p])[1..] == pairs[1..] + [p];
      assert Without(pairs + [p], key) == head + Without(pairs[1..] + [p], key);
      assert Without(pairs, key) == head + Without(pairs[1..], key);
      hide Without;
      WithoutSnoc(pairs[1..], p, key);
      Assoc(head, Without(pairs[1..], key), if p.0 == key then [] else [p]);
    }
  }

  lemma {:induction false} CleanedSnoc(pairs: seq<Pair>, p: Pair)
    ensures Cleaned(pairs + [p]) == Cleaned(pairs) + [(p.0, Clean(p.1))]
  {
    hide Clean;
    if pairs == [] {
      assert pairs + [p] == [p] && [p][1..] == [];
    } else {
      assert (pairs + [p])[1..] == pairs[1..] + [p];
      CleanedSnoc(pairs[1..], p);
    }
  }

  lemma {:induction false} AsMapWithout(pairs: seq<Pair>, key: string)
    ensures AsMap(Without(pairs, key)) == AsMap(pairs) - {key}
    decreases |pairs|
  {
    if pairs != [] {
      var init, p := pairs[..|pairs| - 1], pairs[|pairs| - 1];
      assert pairs == init + [p];
      AsMapWithout(init, key);
      WithoutSnoc(init, p, key);
      if p.0 != key {
        AsMapSnoc(Without(init, key), p);
      } else {
        assert Without(init, key) + [] == Without(init, key);
      }
    }
  }

  lemma {:induction false} AsMapCleaned(pairs: seq<Pair>)
    ensures AsMap(Cleaned(pairs)) == map k | k in AsMap(pairs) :: Clean(AsMap(pairs)[k])
    decreases |pairs|
  {
    hide Clean;
    if pairs != [] {
      var init, p := pairs[..|pairs| - 1], pairs[|pairs| - 1];
      assert pairs == init + [p];
      AsMapCleaned(init);
      CleanedSnoc(init, p);
      AsMapSnoc(Cleaned(init), (p.0, Clean(p.1)));
    }
  }

  lemma WithoutWritable(pairs: seq<Pair>, key: string)
    requires forall p :: p in pairs ==> Writable(p)
    ensures forall p :: p in Without(pairs, key) ==> Writable(p)
  {
    WithoutIn(pairs, key);
  }

  lemma {:induction false} WithoutIn(pairs: seq<Pair>, key: string)
    ensures forall p :: p in Without(pairs, key) ==> p in pairs
  {
    if pairs != [] { WithoutIn(pairs[1..], key); }
  }

  /** Setting a secret, for any file at all: the key reads back as the value
      cleaned, and every other key as what it was before, cleaned once more. */
  lemma SetReadsBack(file: File, key: string, value: string)
    requires Settable(key, value)
    ensures var before, after := AsMap(Loaded(file)), AsMap(Loaded(AfterSet(file, key, value)));
            && after.Keys == before.Keys + {key} && after[key] == Clean(value)
            && forall k :: k in before && k != key ==> after[k] == Clean(before[k])
  {
    hide *;
    var kept := Without(Loaded(file), key);
    LoadedSet(file, key, value);
    AsMapCleaned(kept + [(key, value)]);
    AsMapSnoc(kept, (key, value));
    AsMapWithout(Loaded(file), key);
  }

  lemma LoadedSet(file: File, key: string, value: string)
    requires Settable(key, value)
    ensures Loaded(AfterSet(file, key, value)) == Cleaned(Without(Loaded(file), key) + [(key, value)])
  {
    assert Writable((key, value));
    assert AfterSet(file, key, value) == Some(Encode(Written(Without(Loaded(file), key) + [(key, value)])));
    hide *;
    var kept := Without(Loaded(file), key);
    LoadedWritable(file);
    WithoutWritable(Loaded(file), key);
    assert forall p :: p in kept + [(key, value)] ==> p in kept || p == (key, value);
    LoadedText(Written(kept + [(key, value)]));
    ParseWritten(kept + [(key, value)]);
  }

  lemma RemoveReadsBack(file: File, key: string)
    ensures var before, after := AsMap(Loaded(file)), AsMap(Loaded(AfterRemove(file, key)));
            && after.Keys == before.Keys - {key}
            && (key !in before ==> after == before)
            && (key in before ==> forall k :: k in after ==> after[k] == Clean(before[k]))
  {
    hide Clean, Written, Parse, ValidKey, Encode, Decode;
    var kept := Without(Loaded(file), key);
    LoadedWritable(file);
    WithoutWritable(Loaded(file), key);
    WithoutShrinks(Loaded(file), key);
    AsMapKeys(Loaded(file));
    AsMapWithout(Loaded(file), key);
    if key in Keys(Loaded(file)) {
      LoadedText(Written(kept));
      ParseWritten(kept);
      AsMapCleaned(kept);
    }
  }

  lemma {:induction false} AsMapKeys(pairs: seq<Pair>)
    ensures AsMap(pairs).Keys == Keys(pairs)
    decreases |pairs|
  {
    if pairs != [] {
      AsMapKeys(pairs[..|pairs| - 1]);
      assert pairs == pairs[..|pairs| - 1] + [pairs[|pairs| - 1]];
    }
  }

  // ----------------------------------------------------------------- sequences

  datatype Change = Put(key: string, value: string) | Drop(key: string)

  function Changed(file: File, c: Change): File {
    match c
    case Put(key, value) => if Settable(key, value) then AfterSet(file, key, value) else file
    case Drop(key) => AfterRemove(file, key)
  }

  function AllChanged(file: File, changes: seq<Change>): File
    decreases changes
  {
    if changes == [] then file else AllChanged(Changed(file, changes[0]), changes[1..])
  }

  function Updated(m: map<string, string>, c: Change): map<string, string> {
    match c
    case Put(key, value) => if Settable(key, value) then m[key := value] else m
    case Drop(key) => m - {key}
  }

  function AllUpdated(m: map<string, string>, changes: seq<Change>): map<string, string>
    decreases changes
  {
    if changes == [] then m else AllUpdated(Updated(m, changes[0]), changes[1..])
  }

  predicate MapKept(m: map<string, string>) { forall k :: k in m ==> Kept(m[k]) }

  predicate ChangeKept(c: Change) { c.Put? ==> Kept(c.value) }

  lemma ChangeIsUpdate(file: File, c: Change)
    requires MapKept(AsMap(Loaded(file))) && ChangeKept(c)
    ensures AsMap(Loaded(Changed(file, c))) == Updated(AsMap(Loaded(file)), c)
    ensures MapKept(Updated(AsMap(Loaded(file)), c))
  {
    hide Clean, Loaded, AsMap, AfterSet, AfterRemove;
    var before := AsMap(Loaded(file));
    assert forall k :: k in before ==> Kept(before[k]);
    match c
    case Put(key, value) =>
      if Settable(key, value) { SetReadsBack(file, key, value); }
    case Drop(key) => RemoveReadsBack(file, key);
  }

  /** Any sequence of changes with values that survive behaves as updates of a
      finite map, from any file whose values survive: what is refused changes
      nothing, and no change touches another key. */
  lemma {:induction false} ChangesAreUpdates(file: File, changes: seq<Change>)
    requires MapKept(AsMap(Loaded(file))) && forall c :: c in changes ==> ChangeKept(c)
    ensures AsMap(Loaded(AllChanged(file, changes))) == AllUpdated(AsMap(Loaded(file)), changes)
    decreases |changes|
  {
    hide Loaded, AsMap, Changed, Updated, MapKept, ChangeKept;
    if changes != [] {
      assert changes[0] in changes;
      ChangeIsUpdate(file, changes[0]);
      ChangesAreUpdates(Changed(file, changes[0]), changes[1..]);
    }
  }

  /** The failing family: a value somebody quoted to keep its spaces loses them
      when any other key is set. */
  lemma QuotedIsWornDown(key: string, inner: string, other: string, value: string)
    requires ValidKey(key).Ok? && '\n' !in inner && key != other && Settable(other, value)
    ensures var file := Some(Encode(Written([(key, ['"'] + inner + ['"'])])));
            && AsMap(Loaded(file)) == map[key := inner]
            && AsMap(Loaded(AfterSet(file, other, value))) == map[key := Clean(inner), other := Clean(value)]
  {
    var quoted := ['"'] + inner + ['"'];
    var pairs := [(key, quoted)];
    var file := Some(Encode(Written(pairs)));
    CleanQuoted(inner);
    hide Clean, Parse, Written, ValidKey, Encode, Decode;
    LoadedText(Written(pairs));
    ParseWritten(pairs);
    assert Cleaned(pairs) == [(key, inner)] by { assert pairs[1..] == []; }
    AsMapSnoc([], (key, inner));
    assert [] + [(key, inner)] == [(key, inner)];
    SetReadsBack(file, other, value);
  }

  lemma CleanQuoted(inner: string)
    ensures Clean(['"'] + inner + ['"']) == inner
  {
    var quoted := ['"'] + inner + ['"'];
    TrimFixed(quoted);
    hide Trim;
    assert quoted[1..|quoted| - 1] == inner;
  }

  // --------------------------------------------------- a file that is not text

  function FindByte(bytes: seq<byte>, b: byte): (i: nat)
    ensures i <= |bytes| && b !in bytes[..i] && (i < |bytes| ==> bytes[i] == b)
  {
    if bytes == [] || bytes[0] == b then 0 else 1 + FindByte(bytes[1..], b)
  }

  const FEED: byte := 0x0A

  /** The same file read line by line, leaving out only the lines that are not
      text: what a reader that took each line for itself would have found. */
  function Salvaged(bytes: seq<byte>): seq<Pair>
    decreases |bytes|
  {
    var i := FindByte(bytes, FEED);
    if i == |bytes| then SalvagedLine(bytes)
    else SalvagedLine(bytes[..i]) + Salvaged(bytes[i + 1..])
  }

  function SalvagedLine(bytes: seq<byte>): seq<Pair> {
    match Decode(bytes) case None => [] case Some(line) => Listed(Entry(line))
  }

  lemma EntryIgnoresReturn(line: string)
    ensures Entry(StripReturn(line)) == Entry(line)
  {
    if line != "" && line[|line| - 1] == '\r' {
      var init := line[..|line| - 1];
      assert line == init + ['\r'];
      TrimSnoc(init, '\r');
    }
    hide Trim, SplitOnce, ValidKey, Clean;
  }

  lemma SalvagedLineIs(line: string)
    ensures SalvagedLine(Encode(line)) == Listed(Entry(StripReturn(line))) == Listed(Entry(line))
  {
    DecodeIffEncoded(Encode(line), line);
    EntryIgnoresReturn(line);
    hide Entry, Decode, Encode;
  }

  lemma FeedIsLine(text: string)
    requires FEED in Encode(text)
    ensures '\n' in text
  {
    var i :| 0 <= i < |Encode(text)| && Encode(text)[i] == FEED;
    var k := AsciiIsItself(text, i);
    assert text[k] == '\n';
  }

  lemma EncodeLacksFeed(text: string)
    requires '\n' !in text
    ensures FEED !in Encode(text)
  {
    if FEED in Encode(text) { FeedIsLine(text); }
  }

  lemma {:induction false} FindByteIs(bytes: seq<byte>, b: byte, i: nat)
    requires i <= |bytes| && b !in bytes[..i] && (i < |bytes| ==> bytes[i] == b)
    ensures FindByte(bytes, b) == i
  {
    if i > 0 {
      assert bytes[0] == bytes[..i][0] && bytes[1..][..i - 1] == bytes[..i][1..];
      FindByteIs(bytes[1..], b, i - 1);
    }
  }

  /** Of text it finds what `parse` finds. */
  lemma {:induction false} SalvagedText(text: string)
    ensures Salvaged(Encode(text)) == Parse(text)
    decreases |text|
  {
    var i := Find(text, '\n');
    var bytes := Encode(text);
    if i == |text| {
      assert text[..i] == text;
      EncodeLacksFeed(text);
      FindByteIs(bytes, FEED, |bytes|);
      SalvagedLineIs(text);
      LastLine(text);
    } else {
      var line, rest := text[..i], text[i + 1..];
      EncodeLine(line, rest);
      assert text == line + ['\n'] + rest;
      EncodeLacksFeed(line);
      SalvagedStep(Encode(line), Encode(rest));
      SalvagedLineIs(line);
      SalvagedText(rest);
      hide Salvaged, SalvagedLine, Entry, Encode, StripReturn;
      assert Lines(text) == [StripReturn(line)] + Lines(rest);
    }
  }

  lemma LastLine(text: string)
    requires Find(text, '\n') == |text|
    ensures Parse(text) == Listed(Entry(text))
  {
    hide Find, Entry;
    if text == "" {
      NothingIsNoEntry();
      assert Lines(text) == [] && Entries([]) == [];
      assert Entry(text) == None && Listed(Entry(text)) == [];
    } else {
      var lines := Lines(text);
      assert lines == [text] && lines[1..] == [];
      hide Lines;
      assert Entries(lines) == Listed(Entry(lines[0])) + Entries(lines[1..]);
    }
  }

  lemma NothingIsNoEntry()
    ensures Entry("") == None
  {
    hide SplitOnce, ValidKey, Clean;
  }

  lemma EncodeLine(line: string, rest: string)
    ensures Encode(line + ['\n'] + rest) == Encode(line) + [FEED] + Encode(rest)
  {
    EncodeConcat(line + ['\n'], rest);
    EncodeConcat(line, ['\n']);
    assert ['\n'][1..] == [] && Encode(['\n']) == [FEED] + Encode("");
  }

  lemma SalvagedStep(line: seq<byte>, rest: seq<byte>)
    requires FEED !in line
    ensures Salvaged(line + [FEED] + rest) == SalvagedLine(line) + Salvaged(rest)
  {
    var bytes := line + [FEED] + rest;
    assert bytes[..|line|] == line && bytes[|line| + 1..] == rest;
    FindByteIs(bytes, FEED, |line|);
    hide SalvagedLine, FindByte;
  }

  /** One byte that is not UTF-8, anywhere in the file, and setting any secret
      takes all the others with it: the secrets of its lines all outlive a `set`
      exactly when the file is text, or holds no other. */
  lemma SetKeepsAllIffText(bytes: seq<byte>, key: string, value: string)
    requires Settable(key, value)
    ensures AsMap(Salvaged(bytes)).Keys <= AsMap(Loaded(AfterSet(Some(bytes), key, value))).Keys
            <==> Decode(bytes).Some? || AsMap(Salvaged(bytes)).Keys <= {key}
  {
    SetReadsBack(Some(bytes), key, value);
    if Decode(bytes).Some? {
      var text := Decode(bytes).value;
      DecodeIffEncoded(bytes, text);
      SalvagedText(text);
      hide Decode, Salvaged, AsMap, AfterSet, Parse;
    } else {
      hide Decode, Salvaged, AfterSet, Settable;
      assert Loaded(Some(bytes)) == [];
      assert AsMap([]) == map[];
    }
  }

  /** There is such a file: a good line, and a stray byte after it. */
  lemma StrayByteLosesAll(key: string, value: string)
    requires Settable(key, value) && key != "A"
    ensures var bytes := Encode("A=1\n") + [0xFF];
            && Salvaged(bytes) == [("A", "1")] && Loaded(Some(bytes)) == []
            && AsMap(Loaded(AfterSet(Some(bytes), key, value))) == map[key := Clean(value)]
  {
    var bytes := Encode("A=1\n") + [0xFF];
    StrayLine();
    StrayByte();
    hide Encode, Decode, Salvaged, AfterSet, Settable, Clean, Parse;
    NothingIsSet(bytes, key, value);
  }

  lemma NothingIsSet(bytes: seq<byte>, key: string, value: string)
    requires Settable(key, value) && Decode(bytes) == None
    ensures AsMap(Loaded(AfterSet(Some(bytes), key, value))) == map[key := Clean(value)]
  {
    hide Encode, Decode, AfterSet, Settable, Clean, Parse;
    SetReadsBack(Some(bytes), key, value);
    assert AsMap(Loaded(Some(bytes))) == map[];
  }

  lemma GoodLine()
    ensures Entry("A=1") == Some(("A", "1"))
  {
    hide ValidKey, Entry, Clean;
    assert "A" + ['='] + "1" == "A=1";
    GoodKey();
    GoodValue();
    EntryOfPlain("A", "1");
  }

  lemma GoodKey()
    ensures ValidKey("A").Ok?
  {}

  lemma GoodValue()
    ensures Clean("1") == "1"
  {
    OneLetterSurvives("1");
  }

  lemma OneLetterSurvives(v: string)
    requires |v| == 1 && IsWord(v[0])
    ensures Clean(v) == v
  {
    WordChar(v[0]);
    hide IsWord, IsWhite, Clean;
    Survives(v);
  }

  lemma StrayLine()
    ensures Salvaged(Encode("A=1\n") + [0xFF]) == [("A", "1")]
  {
    hide Encode, SalvagedLine, Entry, Salvaged, FindByte;
    EncodeLine("A=1", "");
    assert "A=1" + ['\n'] + "" == "A=1\n";
    EncodeLacksFeed("A=1");
    NothingEncoded();
    assert Encode("A=1\n") + [0xFF] == Encode("A=1") + [FEED] + [0xFF];
    SalvagedStep(Encode("A=1"), [0xFF]);
    SalvagedLineIs("A=1");
    GoodLine();
    StrayLast();
  }

  lemma NothingEncoded()
    ensures Encode("") == []
  {}

  lemma StrayLast()
    ensures Salvaged([0xFF]) == []
  {
    assert Lead(0xFF) == None;
    assert FindByte([0xFF], FEED) == 1 + FindByte([0xFF][1..], FEED);
    assert Decode([0xFF]) == None;
  }

  lemma StrayByte()
    ensures Decode(Encode("A=1\n") + [0xFF]) == None
  {
    var bytes := Encode("A=1\n") + [0xFF];
    assert bytes[|bytes| - 1] == 0xFF;
    assert 0xFF in bytes;
    hide Decode;
    if Decode(bytes).Some? { TextLacksByte(bytes); }
  }

  lemma TextLacksByte(bytes: seq<byte>)
    requires Decode(bytes).Some?
    ensures 0xFF !in bytes
  {
    var text := Decode(bytes).value;
    DecodeIffEncoded(bytes, text);
    hide Decode, Encode;
    NoLastByte(text);
  }

  /** No encoding holds the byte 0xFF. */
  lemma {:induction false} NoLastByte(text: string)
    ensures 0xFF !in Encode(text)
  {
    if text != "" {
      assert forall b :: b in EncodeChar(text[0]) ==> b != 0xFF;
      NoLastByte(text[1..]);
    }
  }
}
