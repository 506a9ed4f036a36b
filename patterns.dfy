/** The two regular expressions of the handler, `token_re` and `url_re`.

    Each is given twice: as what the pattern denotes (a ghost predicate saying
    that the string splits into pieces matching the parts of the pattern) and
    as the decision the handler runs, with a lemma proving the two agree.
    Python's `re.match` anchors at the start, and `$` (without MULTILINE)
    matches at the very end or just before one "\n" that ends the string.
    Letters and digits are ASCII here; see README.md. */
module Patterns {
  import opened Text
  import opened Outcomes

  /** What `$` lets remain after the pattern body. */
  predicate IsEnd(e: string) { e == "" || e == "\n" }

  // ------------------------------------------------------------------
  // token_re = ^[a-zA-Z0-9_-]+$
  // ------------------------------------------------------------------

  predicate IsNameChar(c: char) { IsAlnum(c) || c == '_' || c == '-' }

  /** One way `token_re` matches `s`: `name` is what `[a-zA-Z0-9_-]+` consumes. */
  predicate TokenParse(s: string, name: string, end: string) {
    && |name| >= 1
    && (forall i :: 0 <= i < |name| ==> IsNameChar(name[i]))
    && IsEnd(end)
    && s == name + end
  }

  /** `token_re.match(s)` succeeds. */
  ghost predicate TokenRe(s: string) {
    exists name, end :: TokenParse(s, name, end)
  }

  /** The decision: the run of name characters at the front is not empty, and
      what follows it is nothing or one final "\n". */
  predicate TokenMatches(s: string) {
    var n := PrefixLen(s, IsNameChar);
    n >= 1 && IsEnd(s[n..])
  }

  lemma TokenMatchesIff(s: string)
    ensures TokenMatches(s) <==> TokenRe(s)
  {
    var n := PrefixLen(s, IsNameChar);
    if TokenMatches(s) {
      assert s == s[..n] + s[n..];
      assert TokenParse(s, s[..n], s[n..]);
    }
    if TokenRe(s) {
      var name, end :| TokenParse(s, name, end);
      assert forall i :: 0 <= i < |name| ==> s[i] == name[i];
      PrefixLenUnique(s, IsNameChar, |name|);
      assert s[n..] == end;
    }
  }

  /** A name is accepted exactly when it is one or more characters of
      `[A-Za-z0-9_-]`, optionally followed by a single "\n". */
  lemma TokenReCharacters(s: string)
    ensures TokenRe(s) <==>
      || (|s| >= 1 && forall i :: 0 <= i < |s| ==> IsNameChar(s[i]))
      || (|s| >= 2 && s[|s| - 1] == '\n' && forall i :: 0 <= i < |s| - 1 ==> IsNameChar(s[i]))
  {
    TokenMatchesIff(s);
    var n := PrefixLen(s, IsNameChar);
    if |s| >= 2 && s[|s| - 1] == '\n' && forall i :: 0 <= i < |s| - 1 ==> IsNameChar(s[i]) {
      PrefixLenUnique(s, IsNameChar, |s| - 1);
    }
    if |s| >= 1 && forall i :: 0 <= i < |s| ==> IsNameChar(s[i]) {
      PrefixLenUnique(s, IsNameChar, |s|);
    }
    if TokenMatches(s) && s[n..] == "\n" {
      assert n == |s| - 1;
    }
  }

  /** The empty name, and names holding a space or a `!`, are refused. */
  lemma TokenReRejects(s: string)
    requires s == "" || ' ' in s || '!' in s
    ensures !TokenRe(s)
  {
    TokenReCharacters(s);
  }

  // ------------------------------------------------------------------
  // url_re (from Django), under IGNORECASE:
  //   ^(?:http|ftp)s?://
  //   (?:(?:[A-Z0-9](?:[A-Z0-9-]{0,61}[A-Z0-9])?\.)+(?:[A-Z]{2,6}\.?|[A-Z0-9-]{2,}\.?)
  //     |localhost|\d{1,3}\.\d{1,3}\.\d{1,3}\.\d{1,3})
  //   (?::\d+)?
  //   (?:/?|[/?]\S+)$
  // ------------------------------------------------------------------

  /** `(?:http|ftp)s?`, any case. */
  predicate IsScheme(scheme: string) {
    var l := Lower(scheme);
    l == "http" || l == "https" || l == "ftp" || l == "ftps"
  }

  /** `[A-Z0-9](?:[A-Z0-9-]{0,61}[A-Z0-9])?`: 1 to 63 characters, letters,
      digits and hyphens, not starting or ending with a hyphen. */
  predicate IsLabel(l: string) {
    && 1 <= |l| <= 63
    && IsAlnum(l[0]) && IsAlnum(l[|l| - 1])
    && forall i :: 0 <= i < |l| ==> IsAlnum(l[i]) || l[i] == '-'
  }

  /** `[A-Z]{2,6}|[A-Z0-9-]{2,}`. */
  predicate IsTld(t: string) {
    || (2 <= |t| <= 6 && forall i :: 0 <= i < |t| ==> IsAsciiLetter(t[i]))
    || (2 <= |t| && forall i :: 0 <= i < |t| ==> IsAlnum(t[i]) || t[i] == '-')
  }

  /** Each label followed by a dot, as `(?:label\.)+` consumes them. */
  function Dotted(labels: seq<string>): string {
    if labels == [] then "" else labels[0] + "." + Dotted(labels[1..])
  }

  /** One way the domain alternative matches `h`. */
  predicate DomainParse(h: string, labels: seq<string>, tld: string, dot: string) {
    && |labels| >= 1
    && (forall i :: 0 <= i < |labels| ==> IsLabel(labels[i]))
    && IsTld(tld)
    && (dot == "" || dot == ".")
    && h == Dotted(labels) + tld + dot
  }

  ghost predicate IsDomain(h: string) {
    exists labels, tld, dot :: DomainParse(h, labels, tld, dot)
  }

  predicate IsLocalhost(h: string) { Lower(h) == "localhost" }

  /** `\d{1,3}`: no range check, so "999" is a group. */
  predicate IsDigitGroup(g: string) {
    1 <= |g| <= 3 && forall i :: 0 <= i < |g| ==> IsDigit(g[i])
  }

  predicate Ipv4Parse(h: string, a: string, b: string, c: string, d: string) {
    && IsDigitGroup(a) && IsDigitGroup(b) && IsDigitGroup(c) && IsDigitGroup(d)
    && h == a + "." + b + "." + c + "." + d
  }

  ghost predicate IsIpv4(h: string) {
    exists a, b, c, d :: Ipv4Parse(h, a, b, c, d)
  }

  ghost predicate IsHost(h: string) { IsDomain(h) || IsLocalhost(h) || IsIpv4(h) }

  /** `(?::\d+)?`. */
  predicate IsPort(p: string) {
    p == "" || (|p| >= 2 && p[0] == ':' && forall i :: 1 <= i < |p| ==> IsDigit(p[i]))
  }

  /** `/?|[/?]\S+`. */
  predicate IsTail(t: string) {
    || t == "" || t == "/"
    || (|t| >= 2 && (t[0] == '/' || t[0] == '?') && forall i :: 1 <= i < |t| ==> !IsSpace(t[i]))
  }

  /** One way `url_re` matches `s`. */
  ghost predicate UrlParse(s: string, scheme: string, host: string, port: string, tail: string, end: string) {
    && IsScheme(scheme) && IsHost(host) && IsPort(port) && IsTail(tail) && IsEnd(end)
    && s == scheme + "://" + host + port + tail + end
  }

  /** `url_re.match(s)` succeeds. */
  ghost predicate UrlRe(s: string) {
    exists scheme, host, port, tail, end :: UrlParse(s, scheme, host, port, tail, end)
  }

  // ---- the decision ----

  /** The characters any host alternative is made of. */
  predicate IsHostChar(c: char) { IsAlnum(c) || c == '-' || c == '.' }

  /** The host without the optional final dot. */
  function CoreOf(h: string): string {
    if h != [] && h[|h| - 1] == '.' then h[..|h| - 1] else h
  }

  predicate DomainMatches(h: string) {
    var parts := Split(CoreOf(h), '.');
    && |parts| >= 2
    && (forall i :: 0 <= i < |parts| - 1 ==> IsLabel(parts[i]))
    && IsTld(parts[|parts| - 1])
  }

  predicate Ipv4Matches(h: string) {
    var groups := Split(h, '.');
    |groups| == 4 && forall i :: 0 <= i < 4 ==> IsDigitGroup(groups[i])
  }

  predicate HostMatches(h: string) { DomainMatches(h) || IsLocalhost(h) || Ipv4Matches(h) }

  datatype UrlParts = UrlParts(scheme: string, host: string, port: string, tail: string, end: string)

  /** Separates the optional port from what follows it. */
  function SplitPort(r: string): (string, string) {
    if r != [] && r[0] == ':' then
      var d := PrefixLen(r[1..], IsDigit);
      (r[..1 + d], r[1 + d..])
    else ("", r)
  }

  /** Separates the newline `$` allows from the path or query before it. */
  function SplitEnd(r: string): (string, string) {
    if r != [] && r[|r| - 1] == '\n' then (r[..|r| - 1], "\n") else (r, "")
  }

  /** Cuts what follows "://" into host, port, path or query, and end. The
      host is the run of host characters at the front: what follows a host
      always starts with ':', '/', '?' or "\n", none of which a host contains. */
  function CutAfterScheme(r: string): UrlParts {
    var h := PrefixLen(r, IsHostChar);
    var portRest := SplitPort(r[h..]);
    var tailEnd := SplitEnd(portRest.1);
    UrlParts("", r[..h], portRest.0, tailEnd.0, tailEnd.1)
  }

  /** Parses what follows "://": the cut pieces must each match their part. */
  function ParseAfterScheme(r: string): Option<UrlParts> {
    var p := CutAfterScheme(r);
    if HostMatches(p.host) && IsPort(p.port) && IsTail(p.tail) then Some(p) else None
  }

  /** The scheme is the run of letters at the front, which a ':' ends. */
  function ParseUrl(s: string): Option<UrlParts> {
    var k := PrefixLen(s, IsAsciiLetter);
    if !(IsScheme(s[..k]) && k + 3 <= |s| && s[k..k + 3] == "://") then None
    else
      match ParseAfterScheme(s[k + 3..])
      case None => None
      case Some(p) => Some(p.(scheme := s[..k]))
  }

  /** What the handler evaluates for `url_re.match(url)`. */
  predicate UrlMatches(s: string) { ParseUrl(s).Some? }

  // ---- agreement of the decision with the pattern ----

  lemma {:induction false} DottedJoin(labels: seq<string>, tld: string)
    ensures Dotted(labels) + tld == Join(labels + [tld], '.')
  {
    if labels != [] {
      DottedJoin(labels[1..], tld);
      assert (labels + [tld])[1..] == labels[1..] + [tld];
    }
  }

  lemma DomainMatchesSound(h: string)
    requires DomainMatches(h)
    ensures IsDomain(h)
  {
    var core := CoreOf(h);
    var parts := Split(core, '.');
    var labels, tld := parts[..|parts| - 1], parts[|parts| - 1];
    assert parts == labels + [tld];
    assert Join(parts, '.') == core;
    DottedJoin(labels, tld);
    assert Dotted(labels) + tld == core;
    var dot := if h != [] && h[|h| - 1] == '.' then "." else "";
    assert h == core + dot;
    assert forall i :: 0 <= i < |labels| ==> IsLabel(labels[i]);
    assert DomainParse(h, labels, tld, dot);
  }

  lemma DomainMatchesComplete(h: string, labels: seq<string>, tld: string, dot: string)
    requires DomainParse(h, labels, tld, dot)
    ensures DomainMatches(h)
  {
    var core := Dotted(labels) + tld;
    var pieces := labels + [tld];
    assert CoreOf(h) == core by {
      if dot == "" {
        assert h == core;
        assert h[|h| - 1] == tld[|tld| - 1];
      } else {
        assert h[..|h| - 1] == core;
      }
    }
    DottedJoin(labels, tld);
    forall i | 0 <= i < |pieces| ensures '.' !in pieces[i] {
      if i < |labels| { assert IsLabel(labels[i]); }
    }
    SplitJoin(pieces, '.');
    assert Split(core, '.') == pieces;
  }

  lemma DomainMatchesIff(h: string)
    ensures DomainMatches(h) <==> IsDomain(h)
  {
    if DomainMatches(h) {
      DomainMatchesSound(h);
    }
    if IsDomain(h) {
      var labels, tld, dot :| DomainParse(h, labels, tld, dot);
      DomainMatchesComplete(h, labels, tld, dot);
    }
  }

  lemma Join4(a: string, b: string, c: string, d: string)
    ensures Join([a, b, c, d], '.') == a + "." + b + "." + c + "." + d
  {
    assert [a, b, c, d][1..] == [b, c, d];
    assert [b, c, d][1..] == [c, d];
    assert [c, d][1..] == [d];
    assert Join([c, d], '.') == c + "." + d;
    assert Join([b, c, d], '.') == b + "." + Join([c, d], '.');
    assert Join([a, b, c, d], '.') == a + "." + Join([b, c, d], '.');
  }

  lemma Ipv4MatchesSound(h: string)
    requires Ipv4Matches(h)
    ensures IsIpv4(h)
  {
    var g := Split(h, '.');
    assert g == [g[0], g[1], g[2], g[3]];
    assert Join(g, '.') == h;
    Join4(g[0], g[1], g[2], g[3]);
    assert Ipv4Parse(h, g[0], g[1], g[2], g[3]);
  }

  lemma Ipv4MatchesComplete(h: string, a: string, b: string, c: string, d: string)
    requires Ipv4Parse(h, a, b, c, d)
    ensures Ipv4Matches(h)
  {
    Join4(a, b, c, d);
    var g := [a, b, c, d];
    forall i | 0 <= i < 4 ensures '.' !in g[i] {
      assert IsDigitGroup(g[i]);
    }
    SplitJoin(g, '.');
    assert Split(h, '.') == g;
  }

  lemma Ipv4MatchesIff(h: string)
    ensures Ipv4Matches(h) <==> IsIpv4(h)
  {
    if Ipv4Matches(h) {
      Ipv4MatchesSound(h);
    }
    if IsIpv4(h) {
      var a, b, c, d :| Ipv4Parse(h, a, b, c, d);
      Ipv4MatchesComplete(h, a, b, c, d);
    }
  }

  lemma HostMatchesIff(h: string)
    ensures HostMatches(h) <==> IsHost(h)
  {
    DomainMatchesIff(h);
    Ipv4MatchesIff(h);
  }

  /** A string whose lower-case form is all letters is all letters. */
  lemma LowerLetters(s: string, t: string)
    requires Lower(s) == t
    requires forall i :: 0 <= i < |t| ==> IsAsciiLetter(t[i])
    ensures forall i :: 0 <= i < |s| ==> IsAsciiLetter(s[i])
  {
    forall i | 0 <= i < |s| ensures IsAsciiLetter(s[i]) {
      assert IsAsciiLetter(LowerChar(s[i]));
    }
  }

  lemma SchemeLetters(scheme: string)
    requires IsScheme(scheme)
    ensures forall i :: 0 <= i < |scheme| ==> IsAsciiLetter(scheme[i])
  {
    LowerLetters(scheme, Lower(scheme));
  }

  lemma {:induction false} DottedHostChars(labels: seq<string>)
    requires forall i :: 0 <= i < |labels| ==> IsLabel(labels[i])
    ensures forall k :: 0 <= k < |Dotted(labels)| ==> IsHostChar(Dotted(labels)[k])
  {
    if labels != [] {
      DottedHostChars(labels[1..]);
      var l := labels[0];
      assert IsLabel(l);
      assert Dotted(labels) == l + "." + Dotted(labels[1..]);
    }
  }

  lemma DomainChars(h: string, labels: seq<string>, tld: string, dot: string)
    requires DomainParse(h, labels, tld, dot)
    ensures forall k :: 0 <= k < |h| ==> IsHostChar(h[k])
  {
    DottedHostChars(labels);
    var d := Dotted(labels);
    assert forall k :: 0 <= k < |d| ==> IsHostChar(d[k]);
    assert forall k :: 0 <= k < |tld| ==> IsHostChar(tld[k]);
    assert h == d + tld + dot;
  }

  lemma Ipv4Chars(h: string, a: string, b: string, c: string, d: string)
    requires Ipv4Parse(h, a, b, c, d)
    ensures forall k :: 0 <= k < |h| ==> IsHostChar(h[k])
  {
  }

  lemma HostChars(h: string)
    requires IsHost(h)
    ensures forall k :: 0 <= k < |h| ==> IsHostChar(h[k])
  {
    if IsDomain(h) {
      var labels, tld, dot :| DomainParse(h, labels, tld, dot);
      DomainChars(h, labels, tld, dot);
    } else if IsLocalhost(h) {
      LowerLetters(h, "localhost");
    } else {
      var a, b, c, d :| Ipv4Parse(h, a, b, c, d);
      Ipv4Chars(h, a, b, c, d);
    }
  }

  lemma SplitEndOf(tail: string, end: string)
    requires IsTail(tail) && IsEnd(end)
    ensures SplitEnd(tail + end) == (tail, end)
  {
    var r := tail + end;
    if end == "" {
      assert r == tail;
      if tail != [] { assert !IsSpace(tail[|tail| - 1]); }
    } else {
      assert r[|r| - 1] == '\n';
      assert r[..|r| - 1] == tail;
    }
  }

  lemma SplitPortOf(port: string, rest: string)
    requires IsPort(port)
    requires rest == [] || rest[0] in {'/', '?', '\n'}
    ensures SplitPort(port + rest) == (port, rest)
  {
    var r := port + rest;
    if port != "" {
      assert r[1..] == port[1..] + rest;
      PrefixLenUnique(r[1..], IsDigit, |port| - 1);
      assert r[..|port|] == port;
    }
  }

  lemma SplitPortJoin(x: string)
    ensures SplitPort(x).0 + SplitPort(x).1 == x
  {
  }

  lemma SplitEndJoin(x: string)
    ensures SplitEnd(x).0 + SplitEnd(x).1 == x && IsEnd(SplitEnd(x).1)
  {
  }

  lemma Concat4(r: string, a: string, y: string, b: string, x: string, c: string, d: string)
    requires r == a + y && y == b + x && x == c + d
    ensures r == a + b + c + d
  {
  }

  lemma CutAfterSchemeJoin(r: string)
    ensures var p := CutAfterScheme(r); r == p.host + p.port + p.tail + p.end && IsEnd(p.end)
  {
    var h := PrefixLen(r, IsHostChar);
    var y := r[h..];
    var x := SplitPort(y).1;
    SplitPortJoin(y);
    SplitEndJoin(x);
    Concat4(r, r[..h], y, SplitPort(y).0, x, SplitEnd(x).0, SplitEnd(x).1);
  }

  lemma AfterSchemeSound(r: string)
    requires ParseAfterScheme(r).Some?
    ensures
      var p := ParseAfterScheme(r).value;
      && IsHost(p.host) && IsPort(p.port) && IsTail(p.tail) && IsEnd(p.end)
      && r == p.host + p.port + p.tail + p.end
  {
    CutAfterSchemeJoin(r);
    HostMatchesIff(CutAfterScheme(r).host);
  }

  lemma AfterSchemeComplete(r: string, host: string, port: string, tail: string, end: string)
    requires IsHost(host) && IsPort(port) && IsTail(tail) && IsEnd(end)
    requires r == host + (port + (tail + end))
    ensures ParseAfterScheme(r) == Some(UrlParts("", host, port, tail, end))
  {
    var after := port + (tail + end);
    HostChars(host);
    assert after == [] || after[0] in {':', '/', '?', '\n'} by {
      if port == "" && tail == "" { assert after == end; }
    }
    PrefixLenUnique(r, IsHostChar, |host|);
    assert r[..|host|] == host;
    assert r[|host|..] == after;
    SplitPortOf(port, tail + end);
    SplitEndOf(tail, end);
    HostMatchesIff(host);
  }

  lemma Regroup(a: string, b: string, c: string, d: string)
    ensures a + b + c + d == a + (b + (c + d))
  {
  }

  lemma Cut3(s: string, i: nat, j: nat)
    requires i <= j <= |s|
    ensures s == s[..i] + s[i..j] + s[j..]
  {
  }

  /** How a URL string falls apart around its "://". */
  lemma SchemeSeparator(s: string, scheme: string, r: string, host: string, port: string, tail: string, end: string)
    requires r == host + port + tail + end
    ensures s == scheme + "://" + host + port + tail + end <==> s == scheme + "://" + r
    ensures s == scheme + "://" + r ==>
      && s[..|scheme|] == scheme && s[|scheme|] == ':'
      && s[|scheme|..|scheme| + 3] == "://" && s[|scheme| + 3..] == r
  {
  }

  lemma ParseUrlSound(s: string)
    requires ParseUrl(s).Some?
    ensures
      var p := ParseUrl(s).value;
      UrlParse(s, p.scheme, p.host, p.port, p.tail, p.end)
  {
    var k := PrefixLen(s, IsAsciiLetter);
    var r := s[k + 3..];
    AfterSchemeSound(r);
    var p := ParseAfterScheme(r).value;
    Cut3(s, k, k + 3);
    SchemeSeparator(s, s[..k], r, p.host, p.port, p.tail, p.end);
  }

  /** The pattern has at most one parse, and the decision finds it. */
  lemma ParseUrlComplete(s: string, scheme: string, host: string, port: string, tail: string, end: string)
    requires UrlParse(s, scheme, host, port, tail, end)
    ensures ParseUrl(s) == Some(UrlParts(scheme, host, port, tail, end))
  {
    SchemeLetters(scheme);
    var k := |scheme|;
    var r := host + port + tail + end;
    SchemeSeparator(s, scheme, r, host, port, tail, end);
    PrefixLenUnique(s, IsAsciiLetter, k);
    Regroup(host, port, tail, end);
    AfterSchemeComplete(r, host, port, tail, end);
  }

  /** With a known scheme in front, the decision is the one on what follows "://". */
  lemma ParseUrlOf(scheme: string, r: string)
    requires IsScheme(scheme)
    ensures ParseUrl(scheme + "://" + r).Some? <==> ParseAfterScheme(r).Some?
  {
    var s := scheme + "://" + r;
    SchemeLetters(scheme);
    PrefixLenUnique(s, IsAsciiLetter, |scheme|);
    assert s[..|scheme|] == scheme;
    assert s[|scheme|..|scheme| + 3] == "://";
    assert s[|scheme| + 3..] == r;
  }

  /** The decision the handler runs: letters at the front that do not spell
      a known scheme make `UrlMatches` refuse the string. */
  lemma ParseUrlUnknownScheme(word: string, rest: string)
    requires forall i :: 0 <= i < |word| ==> IsAsciiLetter(word[i])
    requires rest == [] || !IsAsciiLetter(rest[0])
    requires !IsScheme(word)
    ensures !UrlMatches(word + rest)
  {
    var s := word + rest;
    PrefixLenUnique(s, IsAsciiLetter, |word|);
    assert s[..|word|] == word;
  }

  /** A known scheme has three to five letters and starts with an `h` or an `f`. */
  lemma SchemeShape(scheme: string)
    requires IsScheme(scheme)
    ensures 3 <= |scheme| <= 5
    ensures LowerChar(scheme[0]) == 'h' || LowerChar(scheme[0]) == 'f'
  {
    assert Lower(scheme)[0] == LowerChar(scheme[0]);
  }

  /** The pattern itself: no split of such a string satisfies `UrlRe`,
      by `ParseUrlUnknownScheme` and `UrlMatchesIff`. */
  lemma UnknownSchemeRejected(word: string, rest: string)
    requires forall i :: 0 <= i < |word| ==> IsAsciiLetter(word[i])
    requires rest == [] || !IsAsciiLetter(rest[0])
    requires !IsScheme(word)
    ensures !UrlRe(word + rest)
  {
    ParseUrlUnknownScheme(word, rest);
    UrlMatchesIff(word + rest);
  }

  lemma UrlMatchesIff(s: string)
    ensures UrlMatches(s) <==> UrlRe(s)
  {
    if UrlMatches(s) {
      ParseUrlSound(s);
    }
    if UrlRe(s) {
      var scheme, host, port, tail, end :| UrlParse(s, scheme, host, port, tail, end);
      ParseUrlComplete(s, scheme, host, port, tail, end);
    }
  }
}
