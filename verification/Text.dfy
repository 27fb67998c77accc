/** The parts of Rust's `str` that the daemon leans on. */
module Text {
  import opened Basics

  /** `char::is_whitespace`: the Unicode White_Space property. */
  predicate IsWhite(c: char) {
    var n := c as int;
    || 0x09 <= n <= 0x0D || n == 0x20 || n == 0x85 || n == 0xA0 || n == 0x1680
    || 0x2000 <= n <= 0x200A || n == 0x2028 || n == 0x2029 || n == 0x202F || n == 0x205F || n == 0x3000
  }

  /** `char::is_control`: the Unicode Cc category. */
  predicate IsControl(c: char) {
    var n := c as int;
    n < 0x20 || 0x7F <= n < 0xA0
  }

  function TrimStart(s: string): (r: string)
    ensures r != [] ==> !IsWhite(r[0])
    ensures |r| <= |s| && r == s[|s| - |r|..]
  {
    if s != [] && IsWhite(s[0]) then TrimStart(s[1..]) else s
  }

  function TrimEnd(s: string): (r: string)
    ensures r <= s && (r != [] ==> !IsWhite(r[|r| - 1]))
  {
    if s != [] && IsWhite(s[|s| - 1]) then TrimEnd(s[..|s| - 1]) else s
  }

  /** `str::trim`. */
  function Trim(s: string): (r: string)
    ensures r != [] ==> !IsWhite(r[0]) && !IsWhite(r[|r| - 1])
  {
    TrimEnd(TrimStart(s))
  }

  /** Trimming leaves a text alone exactly when it neither starts nor ends with
      white space. */
  lemma TrimFixed(s: string)
    ensures Trim(s) == s <==> (s == [] || (!IsWhite(s[0]) && !IsWhite(s[|s| - 1])))
  {}

  /** `str::find` for one character; the length when it is not there. */
  function Find(s: string, c: char): (i: nat)
    ensures i <= |s| && c !in s[..i] && (i < |s| ==> s[i] == c)
  {
    if s == [] || s[0] == c then 0 else 1 + Find(s[1..], c)
  }

  lemma {:induction false} FindIs(s: string, c: char, i: nat)
    requires i < |s| && s[i] == c && c !in s[..i]
    ensures Find(s, c) == i
  {
    if i > 0 {
      assert s[0] == s[..i][0] && s[1..][..i - 1] == s[..i][1..];
      FindIs(s[1..], c, i - 1);
    }
  }

  /** `str::split_once`. */
  function SplitOnce(s: string, c: char): Option<(string, string)> {
    var i := Find(s, c);
    if i == |s| then None else Some((s[..i], s[i + 1..]))
  }

  /** Text is split exactly at the first place it can be. */
  lemma SplitOnceIs(s: string, c: char, a: string, b: string)
    ensures SplitOnce(s, c) == Some((a, b)) <==> s == a + [c] + b && c !in a
    ensures SplitOnce(s, c) == None <==> c !in s
  {
    var i := Find(s, c);
    if i < |s| { assert s == s[..i] + [c] + s[i + 1..] && s[i] in s; }
    if s == a + [c] + b && c !in a {
      assert s[..|a|] == a && s[|a|] == c && s[|a| + 1..] == b;
      FindIs(s, c, |a|);
    }
    assert i == |s| ==> s[..i] == s;
  }

  predicate AllWhite(s: string) { forall i :: 0 <= i < |s| ==> IsWhite(s[i]) }

  /** Without white space at its ends. */
  predicate Unpadded(s: string) { s == "" || (!IsWhite(s[0]) && !IsWhite(s[|s| - 1])) }

  /** The 25 characters that are white space. */
  lemma WhiteSpaceIs(c: char)
    ensures IsWhite(c) <==> c as int in {9, 10, 11, 12, 13, 32, 0x85, 0xA0, 0x1680,
      0x2000, 0x2001, 0x2002, 0x2003, 0x2004, 0x2005, 0x2006, 0x2007, 0x2008, 0x2009, 0x200A,
      0x2028, 0x2029, 0x202F, 0x205F, 0x3000}
  {}

  lemma {:induction false} TrimStartPadded(a: string, t: string)
    requires AllWhite(a) && (t == "" || !IsWhite(t[0]))
    ensures TrimStart(a + t) == t
  {
    hide IsWhite;
    if a == "" {
      assert a + t == t;
    } else {
      assert (a + t)[0] == a[0] && (a + t)[1..] == a[1..] + t;
      TrimStartPadded(a[1..], t);
    }
  }

  lemma {:induction false} TrimEndPadded(t: string, b: string)
    requires AllWhite(b) && (t == "" || !IsWhite(t[|t| - 1]))
    ensures TrimEnd(t + b) == t
    decreases |b|
  {
    hide IsWhite;
    if b == "" {
      assert t + b == t;
    } else {
      assert (t + b)[|t + b| - 1] == b[|b| - 1] && (t + b)[..|t + b| - 1] == t + b[..|b| - 1];
      TrimEndPadded(t, b[..|b| - 1]);
    }
  }

  lemma {:induction false} TrimEndLeaves(s: string)
    ensures AllWhite(s[|TrimEnd(s)|..])
    decreases |s|
  {
    hide IsWhite;
    if s != "" && IsWhite(s[|s| - 1]) {
      var init, n := s[..|s| - 1], |TrimEnd(s)|;
      TrimEndLeaves(init);
      forall k | 0 <= k < |s[n..]| ensures IsWhite(s[n..][k]) {
        if k < |s| - 1 - n { assert s[n..][k] == init[n..][k]; }
      }
    }
  }

  lemma {:induction false} TrimStartLeaves(s: string)
    ensures AllWhite(s[..|s| - |TrimStart(s)|])
  {
    hide IsWhite;
    if s != "" && IsWhite(s[0]) {
      var rest := s[1..];
      assert TrimStart(s) == TrimStart(rest);
      hide TrimStart, AllWhite;
      TrimStartLeaves(rest);
      WhiteCons(s, |s| - |TrimStart(rest)|);
    }
  }

  lemma WhiteCons(s: string, n: nat)
    requires 0 < n <= |s| && IsWhite(s[0]) && AllWhite(s[1..][..n - 1])
    ensures AllWhite(s[..n])
  {
    hide IsWhite;
    forall k | 0 <= k < n ensures IsWhite(s[..n][k]) {
      if k > 0 { assert s[..n][k] == s[1..][..n - 1][k - 1]; }
    }
  }

  /** Trimming takes away the white space at both ends, all of it and nothing else. */
  lemma TrimIs(s: string, t: string)
    ensures Trim(s) == t <==> Unpadded(t) && exists a, b :: AllWhite(a) && AllWhite(b) && s == a + t + b
  {
    hide IsWhite, AllWhite, TrimStart, TrimEnd;
    if Trim(s) == t {
      var kept := TrimStart(s);
      TrimStartLeaves(s);
      TrimEndLeaves(kept);
      var a, b := s[..|s| - |kept|], kept[|t|..];
      assert s == a + kept && kept == t + b;
      assert s == a + t + b;
    }
    if Unpadded(t) && exists a, b :: AllWhite(a) && AllWhite(b) && s == a + t + b {
      var a, b :| AllWhite(a) && AllWhite(b) && s == a + t + b;
      TrimAround(a, t, b);
    }
  }

  lemma TrimAround(a: string, t: string, b: string)
    requires AllWhite(a) && AllWhite(b) && Unpadded(t)
    ensures Trim(a + t + b) == t
  {
    hide IsWhite;
    if t == "" {
      assert AllWhite(a + b) && a + t + b == a + b == (a + b) + "";
      TrimStartPadded(a + b, "");
    } else {
      assert a + t + b == a + (t + b) && (t + b)[0] == t[0];
      TrimStartPadded(a, t + b);
      TrimEndPadded(t, b);
    }
  }
}
