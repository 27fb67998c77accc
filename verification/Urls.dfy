/** Which URLs a client may be asked to open (`safe_url` in devpipe/src/marker.rs), and
    what the shim that asks prints, to the byte. */
module Urls {
  import opened Basics
  import opened Utf8
  import opened Text
  import opened Marker

  /** No control character: below U+0020, or from U+007F to U+009F. */
  predicate Printable(s: string) {
    forall i :: 0 <= i < |s| ==> 0x20 <= s[i] as int < 0x7F || 0xA0 <= s[i] as int
  }

  predicate Webby(url: string) {
    || ("https://" <= url && |url| > 8)
    || ("http://" <= url && |url| > 7)
  }

  predicate Allowed(url: string) { Webby(url) && Printable(url) && |Encode(url)| <= 2048 }

  /** What may be opened: a web address and nothing else. Of what was asked for, the
      white space around it is dropped, and the rest is a URL of one of two schemes,
      with something after it, no control character in it, and at most 2048 bytes
      long. */
  lemma SafeUrlIff(raw: string, url: string)
    ensures SafeUrl(raw) == Some(url)
            <==> Allowed(url) && Unpadded(url) && exists a, b :: AllWhite(a) && AllWhite(b) && raw == a + url + b
  {
    hide Trim, Encode, AllWhite, Unpadded;
    TrimIs(raw, url);
    TrimmedIsSafe(raw);
  }

  lemma TrimmedIsSafe(raw: string)
    ensures SafeUrl(raw) == if Allowed(Trim(raw)) then Some(Trim(raw)) else None
  {
    hide Trim, Encode;
    var url := Trim(raw);
    SchemeIs(url);
    assert Printable(url) <==> !exists i :: 0 <= i < |url| && IsControl(url[i]);
  }

  lemma SchemeIs(url: string)
    ensures var rest := match StripPrefix(url, HTTPS) case Some(r) => Some(r) case None => StripPrefix(url, HTTP);
            rest.Some? && rest.value != "" <==> Webby(url)
  {
    assert HTTPS <= url ==> url[4] == 's';
    assert HTTP <= url ==> url[4] == ':';
  }

  /** So every scheme but those two is refused. */
  lemma OtherSchemes(raw: string, url: string)
    requires SafeUrl(raw) == Some(url)
    ensures "http:" <= url || "https:" <= url
    ensures !("javascript:" <= url) && !("file:" <= url) && !("data:" <= url)
  {
    hide Trim, Encode, AllWhite, Unpadded;
    SafeUrlIff(raw, url);
    assert url[0] == 'h';
  }

  /** A sign-in page may be opened, over either scheme; and what is no page may not. */
  lemma SomeAreSafe()
    ensures SafeUrl(" https://claude.ai/oauth\n") == Some("https://claude.ai/oauth")
    ensures SafeUrl("http://localhost:8080/") == Some("http://localhost:8080/")
  {
    hide SafeUrl, Encode, AllWhite, Unpadded, Webby;
    SignIn();
    Local();
    SafeAround(" ", "https://claude.ai/oauth", "\n");
    SafeAround("", "http://localhost:8080/", "");
    assert " " + "https://claude.ai/oauth" + "\n" == " https://claude.ai/oauth\n";
    assert "" + "http://localhost:8080/" + "" == "http://localhost:8080/";
  }

  lemma SignIn()
    ensures var url := "https://claude.ai/oauth";
            Unpadded(url) && Webby(url) && AllWhite(" ") && AllWhite("\n")
            && forall i :: 0 <= i < |url| ==> 0x20 < url[i] as int < 0x7F
  {
    assert "https://" <= "https://claude.ai/oauth";
  }

  lemma Local()
    ensures var url := "http://localhost:8080/";
            Unpadded(url) && Webby(url) && AllWhite("")
            && forall i :: 0 <= i < |url| ==> 0x20 < url[i] as int < 0x7F
  {
    assert "http://" <= "http://localhost:8080/";
  }

  lemma SomeAreRefused()
    ensures SafeUrl("javascript:alert(1)") == SafeUrl("file:///etc/passwd") == SafeUrl("data:text/html,x") == None
    ensures SafeUrl("https://") == SafeUrl("http://") == SafeUrl("HTTPS://claude.ai") == None
  {
    hide SafeUrl;
    NotWebby("javascript:alert(1)");
    NotWebby("file:///etc/passwd");
    NotWebby("data:text/html,x");
    assert "http://"[4] == ':' && "https://"[4] == 's' && !("http://" <= "https://");
    NotWebby("https://");
    NotWebby("http://");
    NotWebby("HTTPS://claude.ai");
  }

  lemma SafeAround(a: string, url: string, b: string)
    requires AllWhite(a) && AllWhite(b) && Unpadded(url) && Webby(url) && |url| < 512
    requires forall i :: 0 <= i < |url| ==> 0x20 < url[i] as int < 0x7F
    ensures SafeUrl(a + url + b) == Some(url)
  {
    hide SafeUrl, Encode;
    ShortEncode(url);
    SafeUrlIff(a + url + b, url);
  }

  lemma NotWebby(raw: string)
    requires Unpadded(raw) && !Webby(raw)
    ensures SafeUrl(raw) == None
  {
    hide Encode;
    TrimFixed(raw);
    TrimmedIsSafe(raw);
  }

  // -------------------------------------------------------- the shim, to the byte

  /** ESC ] 9998 ; devpipe ; open ; and the argument, then ESC and a backslash. */
  lemma ShimPrints(arg: seq<byte>)
    ensures Printed(arg) == [0x1B, 0x5D, 0x39, 0x39, 0x39, 0x38, 0x3B, 0x64, 0x65, 0x76, 0x70, 0x69, 0x70, 0x65, 0x3B,
                             0x6F, 0x70, 0x65, 0x6E, 0x3B]
                            + arg + [0x1B, 0x5C]
  {
    OpenIs();
    hide Encode;
  }

  lemma OpenIs()
    ensures Encode("open;") == [0x6F, 0x70, 0x65, 0x6E, 0x3B]
  {
    assert "open;"[1..] == "pen;" && "pen;"[1..] == "en;" && "en;"[1..] == "n;" && "n;"[1..] == ";" && ";"[1..] == "";
    assert Encode(";") == [0x3B] && Encode("n;") == [0x6E, 0x3B] && Encode("en;") == [0x65, 0x6E, 0x3B];
    assert Encode("pen;") == [0x70, 0x65, 0x6E, 0x3B];
  }

  /** A request ended by a bell (07) is heard as well. */
  lemma BellEnds(s: State, url: string)
    requires SafeUrl(url) == Some(url)
    ensures Scan(s, [0x1B, 0x5D] + Payloaded(url) + [0x07]) == (Text, Pending(s) + [Open(url)])
  {
    hide SafeUrl, Payloaded, Encode, Scan, Pending;
    var payload := Payloaded(url);
    SafeUrlPlain(url);
    PayloadedEnds(url);
    UnpaddedFits(url);
    ParsePayloaded(url);
    OpenIntroduces(s);
    ScanConcat(s, OPEN, payload + [BEL]);
    assert OPEN + (payload + [BEL]) == [0x1B, 0x5D] + payload + [0x07];
    BellScans(payload, Open(url));
    assert Pending(s) + ([] + [Open(url)]) == Pending(s) + [Open(url)];
  }

  lemma BellScans(payload: seq<byte>, found: Marker)
    requires (forall k :: 0 <= k < |payload| ==> !Ends(payload[k])) && Reported(payload) == [found]
    ensures Scan(Payload([], false), payload + [BEL]) == (Text, [found])
  {
    hide Scan, Reported, Remembered;
    RememberedNothing();
    ScanPayload([], payload, |payload|);
    assert [] + payload[..|payload|] == payload[..|payload|] == payload;
    ScanConcat(Payload([], false), payload, [BEL]);
    ScanTerminator(payload, [BEL]);
    assert [BEL][1..] == [];
    ScanNothing();
    assert [] + ([found] + []) == [found];
  }

  lemma RememberedNothing()
    ensures Remembered([]) == Payload([], false)
  {}

  lemma ScanNothing()
    ensures Scan(Text, []) == (Text, [])
  {}
}
