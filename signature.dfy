/** The accept/reject decision of `verify_slack_request`: the string Slack
    signs, the signature the handler expects for it, and the comparison with
    the signature the request carries. HMAC-SHA256 is a parameter (`Mac`);
    nothing about it is assumed. */
module Signature {
  import opened Outcomes

  newtype byte = x: int | 0 <= x < 256

  /** HMAC-SHA256 of a message under a key, both given as the str values
      they are encoded from (UTF-8 encoding is injective, so nothing is lost). */
  type Mac = (string, string) -> seq<byte>

  /** A Lambda proxy event, reduced to what the handler reads. */
  datatype Event = Event(headers: map<string, string>, body: string)

  const SignatureHeader: string := "X-Slack-Signature"
  const TimestampHeader: string := "X-Slack-Request-Timestamp"
  const InvalidSignature: string := "Invalid Slack signature"

  // ---- the signed string ----

  /** `f"v0:{timestamp}:{body}"`. */
  function BaseString(timestamp: string, body: string): (r: string)
    ensures |r| == 4 + |timestamp| + |body|
    ensures r[..3] == "v0:" && r[3 + |timestamp|] == ':'
    ensures r[3..3 + |timestamp|] == timestamp && r[4 + |timestamp|..] == body
  {
    "v0:" + timestamp + ":" + body
  }

  /** Reads a base string back, taking the timestamp to end at the first ':'
      after the "v0:" prefix. */
  function ParseBaseString(s: string): Option<(string, string)> {
    if |s| < 3 || s[..3] != "v0:" then None
    else
      var rest := s[3..];
      var n := ColonIndex(rest);
      if n == |rest| then None else Some((rest[..n], rest[n + 1..]))
  }

  /** Position of the first ':' in `s`, or `|s|` if there is none. */
  function ColonIndex(s: string): (n: nat)
    ensures n <= |s|
    ensures ':' !in s[..n]
    ensures n < |s| ==> s[n] == ':'
  {
    if s == [] then 0
    else if s[0] == ':' then 0
    else
      var n := 1 + ColonIndex(s[1..]);
      assert s[..n] == [s[0]] + s[1..][..n - 1];
      n
  }

  /** Slack timestamps are decimal seconds; any timestamp without a ':' can
      be read back out of the base string, and so can the body. */
  lemma BaseStringRoundTrip(timestamp: string, body: string)
    requires ':' !in timestamp
    ensures ParseBaseString(BaseString(timestamp, body)) == Some((timestamp, body))
  {
    var s := BaseString(timestamp, body);
    var rest := s[3..];
    assert rest == timestamp + ":" + body;
    assert rest[..|timestamp|] == timestamp;
    assert forall k :: 0 <= k < |timestamp| ==> rest[k] == timestamp[k];
    assert rest[|timestamp|] == ':';
  }

  /** Hence two requests with colon-free timestamps sign the same string
      only when their timestamps and bodies are the same. */
  lemma BaseStringInjective(t1: string, b1: string, t2: string, b2: string)
    requires ':' !in t1 && ':' !in t2
    requires BaseString(t1, b1) == BaseString(t2, b2)
    ensures t1 == t2 && b1 == b2
  {
    BaseStringRoundTrip(t1, b1);
    BaseStringRoundTrip(t2, b2);
  }

  /** Without that restriction the signed string is ambiguous: the colon
      can move between the timestamp and the body. */
  lemma BaseStringAmbiguousWithColon()
    ensures BaseString("1:2", "x") == BaseString("1", "2:x")
  {
  }

  // ---- hexdigest ----

  predicate IsHexDigit(c: char) { '0' <= c <= '9' || 'a' <= c <= 'f' }

  function HexValue(c: char): (n: nat)
    requires IsHexDigit(c)
    ensures n < 16
  {
    if '0' <= c <= '9' then (c - '0') as nat else (c - 'a') as nat + 10
  }

  /** The lower-case hexadecimal digit for `n`, as `hexdigest()` writes it. */
  function HexDigit(n: nat): (c: char)
    requires n < 16
    ensures IsHexDigit(c) && HexValue(c) == n
  {
    if n < 10 then ('0' as int + n) as char else ('a' as int + n - 10) as char
  }

  /** `hexdigest()`: two lower-case digits per byte, high nibble first. */
  function Hex(bytes: seq<byte>): (r: string)
    ensures |r| == 2 * |bytes|
    ensures forall i :: 0 <= i < |r| ==> IsHexDigit(r[i])
  {
    if bytes == [] then ""
    else
      var b := bytes[0] as nat;
      [HexDigit(b / 16), HexDigit(b % 16)] + Hex(bytes[1..])
  }

  /** Reads a digest back from its hexadecimal form. */
  function Unhex(s: string): seq<byte>
    requires |s| % 2 == 0
    requires forall i :: 0 <= i < |s| ==> IsHexDigit(s[i])
  {
    if s == [] then []
    else [(16 * HexValue(s[0]) + HexValue(s[1])) as byte] + Unhex(s[2..])
  }

  lemma {:induction false} HexRoundTrip(bytes: seq<byte>)
    ensures Unhex(Hex(bytes)) == bytes
  {
    if bytes != [] {
      var b := bytes[0] as nat;
      var r := Hex(bytes);
      assert r[2..] == Hex(bytes[1..]);
      HexRoundTrip(bytes[1..]);
      assert 16 * (b / 16) + b % 16 == b;
      assert bytes == [bytes[0]] + bytes[1..];
    }
  }

  /** Different digests never print the same. */
  lemma HexInjective(a: seq<byte>, b: seq<byte>)
    requires Hex(a) == Hex(b)
    ensures a == b
  {
    HexRoundTrip(a);
    HexRoundTrip(b);
  }

  // ---- the check ----

  /** `"v0=" + hmac.new(secret, basestring, sha256).hexdigest()`. */
  function ExpectedSignature(secret: string, timestamp: string, body: string, mac: Mac): (r: string)
    ensures |r| == 3 + 2 * |mac(secret, BaseString(timestamp, body))|
    ensures r[..3] == "v0=" && IsAscii(r)
  {
    "v0=" + Hex(mac(secret, BaseString(timestamp, body)))
  }

  /** Every character is ASCII, which `hmac.compare_digest` demands of str arguments. */
  predicate IsAscii(s: string) {
    forall i :: 0 <= i < |s| ==> s[i] < '\U{80}'
  }

  /** `verify_slack_request(event)`: reads the signature header, then the
      timestamp header, then compares. `compare_digest` raises TypeError on a
      non-ASCII str; the handler's own signature is always ASCII. */
  function Verify(event: Event, secret: string, mac: Mac): (c: Check)
    ensures c.Pass? <==>
      && SignatureHeader in event.headers && TimestampHeader in event.headers
      && event.headers[SignatureHeader] == ExpectedSignature(secret, event.headers[TimestampHeader], event.body, mac)
    ensures SignatureHeader !in event.headers ==> c == Fail(KeyError(SignatureHeader))
    ensures SignatureHeader in event.headers && TimestampHeader !in event.headers ==>
      c == Fail(KeyError(TimestampHeader))
    ensures c.Fail? && SignatureHeader in event.headers && TimestampHeader in event.headers ==>
      c.error == (if IsAscii(event.headers[SignatureHeader]) then RuntimeError(InvalidSignature) else TypeError)
  {
    if SignatureHeader !in event.headers then Fail(KeyError(SignatureHeader))
    else if TimestampHeader !in event.headers then Fail(KeyError(TimestampHeader))
    else
      var given := event.headers[SignatureHeader];
      var mine := ExpectedSignature(secret, event.headers[TimestampHeader], event.body, mac);
      if !IsAscii(given) then Fail(TypeError)
      else if mine != given then Fail(RuntimeError(InvalidSignature))
      else Pass
  }

  /** Changing the body of an accepted request while keeping its headers is
      rejected whenever the two bodies' base strings get different digests. */
  lemma TamperedBodyRejected(event: Event, body: string, secret: string, mac: Mac)
    requires Verify(event, secret, mac).Pass?
    requires var ts := event.headers[TimestampHeader];
      mac(secret, BaseString(ts, body)) != mac(secret, BaseString(ts, event.body))
    ensures Verify(event.(body := body), secret, mac).Fail?
  {
    var ts := event.headers[TimestampHeader];
    if Verify(event.(body := body), secret, mac).Pass? {
      var d1 := mac(secret, BaseString(ts, body));
      var d2 := mac(secret, BaseString(ts, event.body));
      assert Hex(d1) == ExpectedSignature(secret, ts, body, mac)[3..];
      assert Hex(d2) == ExpectedSignature(secret, ts, event.body, mac)[3..];
      HexInjective(d1, d2);
    }
  }
}
