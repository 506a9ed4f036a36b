/** Character classes and the Python `str` operations the handler relies on:
    `replace`, `split(" ")`, `strip()` and `lower()`. */
module Text {

  /** Python's `str.isspace()`. It is also the set `\s` matches in a str
      pattern and the set `strip()` removes. */
  predicate IsSpace(c: char) {
    || ('\t' <= c <= '\r')
    || ('\U{1C}' <= c <= '\U{1F}')
    || c == ' ' || c == '\U{85}' || c == '\U{A0}' || c == '\U{1680}'
    || ('\U{2000}' <= c <= '\U{200A}')
    || c == '\U{2028}' || c == '\U{2029}' || c == '\U{202F}' || c == '\U{205F}' || c == '\U{3000}'
  }

  predicate IsAsciiLetter(c: char) { 'a' <= c <= 'z' || 'A' <= c <= 'Z' }

  predicate IsDigit(c: char) { '0' <= c <= '9' }

  predicate IsAlnum(c: char) { IsAsciiLetter(c) || IsDigit(c) }

  /** ASCII lower-casing; every other character is left as it is. */
  function LowerChar(c: char): (d: char)
    ensures IsAsciiLetter(d) <==> IsAsciiLetter(c)
    ensures !IsAsciiLetter(c) ==> d == c
    ensures 'a' <= d <= 'z' || !IsAsciiLetter(d)
  {
    if 'A' <= c <= 'Z' then (c as int + 32) as char else c
  }

  /** `s.lower()` over ASCII. */
  function Lower(s: string): (r: string)
    ensures |r| == |s|
    ensures forall i :: 0 <= i < |s| ==> r[i] == LowerChar(s[i])
  {
    if s == [] then [] else [LowerChar(s[0])] + Lower(s[1..])
  }

  /** A string without upper-case letters is its own lower-case form. */
  lemma LowerUnchanged(s: string)
    requires forall i :: 0 <= i < |s| ==> !('A' <= s[i] <= 'Z')
    ensures Lower(s) == s
  {
  }

  /** `s.replace(from, to)` for single characters. */
  function ReplaceChar(s: string, from: char, to: char): (r: string)
    ensures |r| == |s|
    ensures forall i :: 0 <= i < |s| ==> r[i] == if s[i] == from then to else s[i]
    ensures from != to ==> from !in r
  {
    if s == [] then [] else [if s[0] == from then to else s[0]] + ReplaceChar(s[1..], from, to)
  }

  /** Length of the longest prefix of `s` whose characters all satisfy `p`. */
  function PrefixLen(s: string, p: char -> bool): (n: nat)
    ensures n <= |s|
    ensures forall i :: 0 <= i < n ==> p(s[i])
    ensures n == |s| || !p(s[n])
  {
    if s == [] || !p(s[0]) then 0 else 1 + PrefixLen(s[1..], p)
  }

  /** The longest such prefix is the only prefix that `p` covers and that is
      followed by the end of `s` or a character outside `p`. */
  lemma PrefixLenUnique(s: string, p: char -> bool, n: nat)
    requires n <= |s|
    requires forall i :: 0 <= i < n ==> p(s[i])
    requires n == |s| || !p(s[n])
    ensures PrefixLen(s, p) == n
  {
  }

  /** Length of the longest suffix of `s` whose characters all satisfy `p`. */
  function SuffixLen(s: string, p: char -> bool): (n: nat)
    ensures n <= |s|
    ensures forall i :: |s| - n <= i < |s| ==> p(s[i])
    ensures n == |s| || !p(s[|s| - 1 - n])
  {
    if s == [] || !p(s[|s| - 1]) then 0 else 1 + SuffixLen(s[..|s| - 1], p)
  }

  /** `s.strip()`: the slice of `s` left once leading and trailing whitespace
      is removed. Everything outside the slice is whitespace, and the slice
      neither starts nor ends with whitespace. */
  function Strip(s: string): (r: string)
    ensures PrefixLen(s, IsSpace) + |r| <= |s|
    ensures r == s[PrefixLen(s, IsSpace)..PrefixLen(s, IsSpace) + |r|]
    ensures forall k :: 0 <= k < |s| && !(PrefixLen(s, IsSpace) <= k < PrefixLen(s, IsSpace) + |r|) ==> IsSpace(s[k])
    ensures r != [] ==> !IsSpace(r[0]) && !IsSpace(r[|r| - 1])
  {
    var i := PrefixLen(s, IsSpace);
    if i == |s| then [] else s[i..|s| - SuffixLen(s, IsSpace)]
  }

  /** Index of the first occurrence of `c` in `s`. */
  function IndexOf(s: string, c: char): (i: nat)
    requires c in s
    ensures i < |s| && s[i] == c && c !in s[..i]
  {
    if s[0] == c then 0 else 1 + IndexOf(s[1..], c)
  }

  /** `sep.join(parts)` for a one-character separator. */
  function Join(parts: seq<string>, sep: char): string {
    if |parts| == 0 then ""
    else if |parts| == 1 then parts[0]
    else parts[0] + [sep] + Join(parts[1..], sep)
  }

  lemma JoinThree(parts: seq<string>, sep: char)
    requires |parts| == 3
    ensures Join(parts, sep) == parts[0] + [sep] + parts[1] + [sep] + parts[2]
  {
    var tail := parts[1..];
    assert tail[1..] == [parts[2]];
    assert Join(tail, sep) == parts[1] + [sep] + parts[2];
    assert Join(parts, sep) == parts[0] + [sep] + Join(tail, sep);
  }

  /** `s.split(sep)` for a one-character separator: never empty, no piece
      holds the separator, and joining the pieces back gives `s`. */
  function Split(s: string, sep: char): (parts: seq<string>)
    ensures |parts| >= 1
    ensures forall i :: 0 <= i < |parts| ==> sep !in parts[i]
    ensures Join(parts, sep) == s
    ensures |parts| == 1 <==> sep !in s
    decreases |s|
  {
    if sep !in s then [s]
    else
      var i := IndexOf(s, sep);
      var rest := Split(s[i + 1..], sep);
      assert s == s[..i] + [sep] + s[i + 1..];
      assert ([s[..i]] + rest)[1..] == rest;
      [s[..i]] + rest
  }

  /** Splitting at a first separator gives the piece before it, then the
      split of the rest. */
  lemma SplitFirst(head: string, rest: string, sep: char)
    requires sep !in head
    ensures Split(head + [sep] + rest, sep) == [head] + Split(rest, sep)
  {
    var s := head + [sep] + rest;
    assert s[|head|] == sep;
    assert forall k :: 0 <= k < |head| ==> s[k] == head[k];
    var i := IndexOf(s, sep);
    assert i == |head|;
    assert s[..i] == head;
    assert s[i + 1..] == rest;
  }

  /** Joining puts the first piece and a separator in front of the rest. */
  lemma JoinSplitStep(parts: seq<string>, sep: char)
    requires |parts| > 1 && sep !in parts[0]
    ensures Split(Join(parts, sep), sep) == [parts[0]] + Split(Join(parts[1..], sep), sep)
  {
    assert Join(parts, sep) == parts[0] + [sep] + Join(parts[1..], sep);
    SplitFirst(parts[0], Join(parts[1..], sep), sep);
  }

  /** Splitting undoes joining: pieces free of the separator come back as they were. */
  lemma {:induction false} SplitJoin(parts: seq<string>, sep: char)
    requires |parts| >= 1
    requires forall i :: 0 <= i < |parts| ==> sep !in parts[i]
    ensures Split(Join(parts, sep), sep) == parts
  {
    if |parts| > 1 {
      JoinSplitStep(parts, sep);
      SplitJoin(parts[1..], sep);
      assert parts == [parts[0]] + parts[1..];
    }
  }
}
