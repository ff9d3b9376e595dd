/**
 * String helpers the converter relies on: ASCII encoding of label names,
 * `s.split(sep)[0]`, and `os.path.join` on a POSIX system.
 */
module Text {

  /** One element of a Python `bytes` object. */
  type byte = b: int | 0 <= b < 256

  predicate IsAscii(s: string)
  {
    forall i :: 0 <= i < |s| ==> s[i] as int < 128
  }

  /** `s.encode('ascii')`: one byte per character, its code point. */
  function EncodeAscii(s: string): seq<byte>
    requires IsAscii(s)
  {
    seq(|s|, i requires 0 <= i < |s| => s[i] as int)
  }

  /** Reads bytes back as characters, one per byte. */
  function CharsOf(b: seq<byte>): string
  {
    seq(|b|, i requires 0 <= i < |b| => b[i] as char)
  }

  /** Decoding the ASCII encoding of a name gives the name back. */
  lemma CharsOfEncodeAscii(s: string)
    requires IsAscii(s)
    ensures |EncodeAscii(s)| == |s|
    ensures CharsOf(EncodeAscii(s)) == s
  {
  }

  /**
   * `s.split(sep)[0]`: the part of `s` before its first `sep`, or all of `s`
   * when `sep` does not occur.
   */
  function PrefixBefore(s: string, sep: char): (p: string)
    ensures p <= s && sep !in p
    ensures p == s || s[|p|] == sep
  {
    if s == [] then []
    else if s[0] == sep then []
    else [s[0]] + PrefixBefore(s[1..], sep)
  }

  /** The three properties of PrefixBefore determine it. */
  lemma PrefixBeforeUnique(s: string, sep: char, p: string)
    requires p <= s && sep !in p
    requires p == s || s[|p|] == sep
    ensures p == PrefixBefore(s, sep)
  {
  }

  /** `s.endswith(t)`. */
  predicate EndsWith(s: string, t: string)
  {
    |t| <= |s| && s[|s| - |t|..] == t
  }

  /**
   * `posixpath.join(a, b)`: an absolute `b` replaces everything before it;
   * otherwise a `/` is inserted unless `a` is empty or already ends in one.
   */
  function Join(a: string, b: string): string
  {
    if |b| > 0 && b[0] == '/' then b
    else if a == [] || a[|a| - 1] == '/' then a + b
    else a + "/" + b
  }

  /** `os.path.join(first, *rest)`: `Join` applied left to right. */
  function JoinPath(first: string, rest: seq<string>): string
    decreases |rest|
  {
    if rest == [] then first else Join(JoinPath(first, rest[..|rest| - 1]), rest[|rest| - 1])
  }

  /** Joining one more component joins it to the path built so far. */
  lemma JoinPathSnoc(first: string, rest: seq<string>, last: string)
    ensures JoinPath(first, rest + [last]) == Join(JoinPath(first, rest), last)
  {
    assert (rest + [last])[..|rest|] == rest;
  }

  /** `os.path.join` of two, three and four components, spelled out. */
  lemma JoinPathUnfold(first: string, a: string, b: string, c: string)
    ensures JoinPath(first, [a, b]) == Join(Join(first, a), b)
    ensures JoinPath(first, [a, b, c]) == Join(Join(Join(first, a), b), c)
  {
    JoinPathSnoc(first, [], a);
    assert [a] == [] + [a];
    JoinPathSnoc(first, [a], b);
    assert [a, b] == [a] + [b];
    JoinPathSnoc(first, [a, b], c);
    assert [a, b, c] == [a, b] + [c];
  }

  lemma JoinPathUnfold4(first: string, a: string, b: string, c: string, d: string)
    ensures JoinPath(first, [a, b, c, d]) == Join(Join(Join(Join(first, a), b), c), d)
  {
    JoinPathUnfold(first, a, b, c);
    JoinPathSnoc(first, [a, b, c], d);
    assert [a, b, c, d] == [a, b, c] + [d];
  }

  /** `a` followed by a separator, as `Join` would put one before a relative component. */
  function WithSlash(a: string): (r: string)
    ensures |r| > 0 ==> r[|r| - 1] == '/'
  {
    if a == [] || a[|a| - 1] == '/' then a else a + "/"
  }

  /** Joining a relative component to `a` appends it after `WithSlash(a)`. */
  lemma JoinRelative(a: string, b: string)
    requires b == [] || b[0] != '/'
    ensures Join(a, b) == WithSlash(a) + b
  {
  }
}
