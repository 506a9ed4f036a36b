/** Worked examples of the two patterns, proved from their definitions.

    Each example is assembled from small facts about its pieces (a scheme,
    a host, the way the pieces concatenate), each proved on its own. */
module PatternExamples {
  import opened Text
  import opened Patterns

  // ---- token_re ----

  lemma TokenAcceptsExample()
    ensures TokenRe("some-name_123")
  {
    assert TokenParse("some-name_123", "some-name_123", "");
  }

  /** `$` lets one final "\n" through. */
  lemma TokenAcceptsTrailingNewline()
    ensures TokenRe("my-link\n")
  {
    assert TokenParse("my-link\n", "my-link", "\n");
  }

  lemma TokenRejectsExamples()
    ensures !TokenRe("some name") && !TokenRe("name!") && !TokenRe("")
  {
    TokenReRejects("some name");
    TokenReRejects("name!");
    TokenReRejects("");
  }

  // ---- url_re, accepted ----

  lemma UrlParseIntro(s: string, scheme: string, host: string, port: string, tail: string, end: string)
    requires IsScheme(scheme) && IsHost(host) && IsPort(port) && IsTail(tail) && IsEnd(end)
    requires s == scheme + "://" + host + port + tail + end
    ensures UrlRe(s)
  {
    assert UrlParse(s, scheme, host, port, tail, end);
  }

  lemma KnownSchemes()
    ensures IsScheme("http") && IsScheme("https") && IsScheme("ftp")
  {
  }

  lemma ExampleComPieces()
    ensures IsLabel("example") && IsTld("com")
    ensures Dotted(["example"]) + "com" + "" == "example.com"
  {
    assert Dotted(["example"]) == "example.";
  }

  lemma ExampleComIsHost()
    ensures IsHost("example.com")
  {
    ExampleComPieces();
    assert DomainParse("example.com", ["example"], "com", "");
  }

  lemma DomainText()
    ensures "https" + "://" + "example.com" + "" + "" + "" == "https://example.com"
    ensures "https" + "://" + "example.com" + "" + "" + "\n" == "https://example.com\n"
  {
  }

  lemma UrlAcceptsDomain()
    ensures UrlRe("https://example.com")
  {
    KnownSchemes();
    ExampleComIsHost();
    DomainText();
    UrlParseIntro("https://example.com", "https", "example.com", "", "", "");
  }

  /** `$` lets one final "\n" through. */
  lemma UrlAcceptsTrailingNewline()
    ensures UrlRe("https://example.com\n")
  {
    KnownSchemes();
    ExampleComIsHost();
    DomainText();
    UrlParseIntro("https://example.com\n", "https", "example.com", "", "", "\n");
  }

  lemma Ipv4ExampleIsHost()
    ensures IsHost("1.2.3.4")
  {
    assert Ipv4Parse("1.2.3.4", "1", "2", "3", "4");
  }

  lemma PortAndPath()
    ensures IsPort(":8080") && IsTail("/path")
  {
  }

  lemma Ipv4Text()
    ensures "http" + "://" + "1.2.3.4" + ":8080" + "/path" + "" == "http://1.2.3.4:8080/path"
  {
  }

  lemma UrlAcceptsIpv4WithPort()
    ensures UrlRe("http://1.2.3.4:8080/path")
  {
    KnownSchemes();
    Ipv4ExampleIsHost();
    PortAndPath();
    Ipv4Text();
    UrlParseIntro("http://1.2.3.4:8080/path", "http", "1.2.3.4", ":8080", "/path", "");
  }

  lemma LocalhostIsHost()
    ensures IsHost("localhost")
  {
    LowerUnchanged("localhost");
    assert IsLocalhost("localhost");
  }

  lemma LocalhostText()
    ensures "ftp" + "://" + "localhost" + "" + "" + "" == "ftp://localhost"
  {
  }

  lemma UrlAcceptsLocalhost()
    ensures UrlRe("ftp://localhost")
  {
    KnownSchemes();
    LocalhostIsHost();
    LocalhostText();
    UrlParseIntro("ftp://localhost", "ftp", "localhost", "", "", "");
  }

  // ---- url_re, refused ----

  lemma UnknownSchemePieces()
    ensures !IsScheme("not") && !IsScheme("javascript")
  {
    if IsScheme("not") {
      SchemeShape("not");
    }
    if IsScheme("javascript") {
      SchemeShape("javascript");
    }
  }

  lemma UnknownSchemeText()
    ensures "not" + "-a-url" == "not-a-url"
    ensures "javascript" + ":alert(1)" == "javascript:alert(1)"
  {
  }

  /** No "://" after the letters at the front. */
  lemma UrlRejectsNoScheme()
    ensures !UrlRe("not-a-url")
  {
    UnknownSchemePieces();
    UnknownSchemeRejected("not", "-a-url");
    UnknownSchemeText();
  }

  /** A scheme the pattern does not know. */
  lemma UrlRejectsJavascript()
    ensures !UrlRe("javascript:alert(1)")
  {
    UnknownSchemePieces();
    UnknownSchemeRejected("javascript", ":alert(1)");
    UnknownSchemeText();
  }

  lemma UrlRejectsEmpty()
    ensures !UrlRe("")
  {
    UrlMatchesIff("");
  }

  lemma ShortTldSplit()
    ensures Split("a.b", '.') == ["a", "b"]
  {
    SplitJoin(["a", "b"], '.');
    assert Join(["a", "b"], '.') == "a.b";
  }

  lemma ShortTldCut()
    ensures CutAfterScheme("a.b").host == "a.b"
  {
    PrefixLenUnique("a.b", IsHostChar, 3);
  }

  lemma ShortTldNotHost()
    ensures !HostMatches("a.b")
  {
    ShortTldSplit();
    assert !IsTld("b");
    assert Lower("a.b") != "localhost";
  }

  lemma ShortTldText()
    ensures "http" + "://" + "a.b" == "http://a.b"
  {
  }

  /** A TLD needs at least two characters. */
  lemma UrlRejectsShortTld()
    ensures !UrlRe("http://a.b")
  {
    ShortTldCut();
    ShortTldNotHost();
    KnownSchemes();
    ParseUrlOf("http", "a.b");
    ShortTldText();
    UrlMatchesIff("http://a.b");
  }
}
