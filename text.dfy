/**
 * String helpers shared by the backend (Python `str.strip`, `str.split`, `str.lower`) and the
 * frontend (JavaScript `String.prototype.trim`, `split(/\s+/)`, `toLowerCase`).
 * Whitespace is the six ASCII whitespace characters; lower-casing maps A-Z only.
 */
module Text {
  import opened Wrappers

  /** Python and JavaScript truthiness of an optional string: present and non-empty. */
  predicate Truthy(s: Option<string>) {
    s.Some? && s.value != ""
  }

  /** Python `a or b` on optional strings: `a` unless it is absent or empty. */
  function Or(a: Option<string>, b: Option<string>): Option<string> {
    if Truthy(a) then a else b
  }

  predicate IsSpace(c: char) {
    c == ' ' || c == '\t' || c == '\n' || c == '\r' || c == '\U{B}' || c == '\U{C}'
  }

  predicate AllSpace(s: string) {
    forall i :: 0 <= i < |s| ==> IsSpace(s[i])
  }

  predicate NoSpace(s: string) {
    forall i :: 0 <= i < |s| ==> !IsSpace(s[i])
  }

  /** `s` with its leading whitespace removed. */
  function TrimStart(s: string): (r: string)
    ensures |r| <= |s| && r == s[|s| - |r|..]
    ensures AllSpace(s[..|s| - |r|])
    ensures r == [] || !IsSpace(r[0])
  {
    if |s| > 0 && IsSpace(s[0]) then
      var r := TrimStart(s[1..]);
      assert s[..|s| - |r|] == [s[0]] + s[1..][..|s| - 1 - |r|];
      r
    else s
  }

  /** `s` with its trailing whitespace removed. */
  function TrimEnd(s: string): (r: string)
    ensures |r| <= |s| && r == s[..|r|]
    ensures AllSpace(s[|r|..])
    ensures r == [] || !IsSpace(r[|r| - 1])
  {
    if |s| > 0 && IsSpace(s[|s| - 1]) then
      var r := TrimEnd(s[..|s| - 1]);
      assert s[|r|..] == s[..|s| - 1][|r|..] + [s[|s| - 1]];
      r
    else s
  }

  /** Python `s.strip()` and JavaScript `s.trim()`. */
  function Trim(s: string): (r: string)
    ensures |r| <= |s|
    ensures r == [] <==> AllSpace(s)
    ensures r != [] ==> !IsSpace(r[0]) && !IsSpace(r[|r| - 1])
  {
    var t := TrimStart(s);
    var r := TrimEnd(t);
    assert r != [] ==> r[0] == t[0];
    assert AllSpace(s) ==> t == [] by {
      if t != [] { assert t[0] == s[|s| - |t|]; }
    }
    assert t == [] ==> AllSpace(s) by {
      if t == [] { assert s[..|s| - |t|] == s; }
    }
    r
  }

  /**
   * What trimming means: the result is a slice of `s` with only whitespace before and after it, and
   * together with the ends of Trim's contract that slice is the unique one.
   */
  lemma TrimMeaning(s: string)
    ensures var r := Trim(s);
      exists a :: 0 <= a <= |s| - |r| && r == s[a..a + |r|] && AllSpace(s[..a]) && AllSpace(s[a + |r|..])
  {
    var t := TrimStart(s);
    var r := TrimEnd(t);
    assert Trim(s) == r;
    TrimmedSlice(s, t, r);
  }

  /**
   * A prefix `r` of a suffix `t` of `s`, with only whitespace before `t` and after `r`, is a slice of
   * `s` with only whitespace around it.
   */
  lemma TrimmedSlice(s: string, t: string, r: string)
    requires |t| <= |s| && t == s[|s| - |t|..] && AllSpace(s[..|s| - |t|])
    requires |r| <= |t| && r == t[..|r|] && AllSpace(t[|r|..])
    ensures exists a :: 0 <= a <= |s| - |r| && r == s[a..a + |r|] && AllSpace(s[..a]) && AllSpace(s[a + |r|..])
  {
    var a := |s| - |t|;
    assert s[a + |r|..] == t[|r|..];
    assert 0 <= a <= |s| - |r| && r == s[a..a + |r|] && AllSpace(s[..a]) && AllSpace(s[a + |r|..]);
  }

  /** The longest prefix of `s` that holds no whitespace. */
  function Word(s: string): (r: string)
    ensures |r| <= |s| && r == s[..|r|]
    ensures NoSpace(r)
    ensures |r| < |s| ==> IsSpace(s[|r|])
  {
    if |s| == 0 || IsSpace(s[0]) then [] else [s[0]] + Word(s[1..])
  }

  /**
   * The first whitespace-separated word of `s`, or "" when there is none: Python
   * `(s.strip().split()[:1] or [""])[0]` and JavaScript `s.trim().split(/\s+/)[0]`.
   */
  function FirstWord(s: string): (r: string)
    ensures NoSpace(r)
    ensures r == [] <==> AllSpace(s)
    ensures |r| <= |Trim(s)| && r == Trim(s)[..|r|]
    ensures |r| < |Trim(s)| ==> IsSpace(Trim(s)[|r|])
  {
    Word(Trim(s))
  }

  function LowerChar(c: char): char {
    if 'A' <= c <= 'Z' then (c as int - 'A' as int + 'a' as int) as char else c
  }

  /** Python `str.lower()` and JavaScript `toLowerCase()`, on ASCII letters. */
  function Lower(s: string): string {
    seq(|s|, i requires 0 <= i < |s| => LowerChar(s[i]))
  }

  /** A string whose first and last characters are not whitespace survives trimming at the front of a text. */
  lemma {:induction false} TrimKeepsLeadingWord(w: string, rest: string)
    requires w != [] && !IsSpace(w[0]) && !IsSpace(w[|w| - 1])
    ensures |w| <= |Trim(w + rest)| && Trim(w + rest)[..|w|] == w
  {
    var s := w + rest;
    assert TrimStart(s) == s;
    var r := TrimEnd(s);
    forall i | |r| <= i < |s|
      ensures IsSpace(s[i])
    {
      assert s[|r|..][i - |r|] == s[i];
    }
    assert s[|w| - 1] == w[|w| - 1];
    assert r[..|w|] == s[..|w|];
  }

  /**
   * The message of the `Error` a page throws for a reply that is not OK:
   * `${prefix} ${status} ${statusText} ${body}`.trim(), where `status` is the decimal status code.
   */
  function HttpFailure(prefix: string, status: string, statusText: string, body: string): (r: string)
    requires prefix != [] && !IsSpace(prefix[0]) && !IsSpace(prefix[|prefix| - 1])
    ensures |prefix| <= |r| && r[..|prefix|] == prefix
    ensures !IsSpace(r[0]) && !IsSpace(r[|r| - 1])
  {
    TrimKeepsLeadingWord(prefix, " " + status + " " + statusText + " " + body);
    assert prefix + " " + status + " " + statusText + " " + body == prefix + (" " + status + " " + statusText + " " + body);
    Trim(prefix + " " + status + " " + statusText + " " + body)
  }

  /**
   * The message carries the status, the status text and the body after its prefix, each preceded by
   * one space; only trailing whitespace is cut, since the prefix does not start with any.
   */
  lemma HttpFailureMeaning(prefix: string, status: string, statusText: string, body: string)
    requires prefix != [] && !IsSpace(prefix[0]) && !IsSpace(prefix[|prefix| - 1])
    ensures HttpFailure(prefix, status, statusText, body) == TrimEnd(prefix + " " + status + " " + statusText + " " + body)
  {
    var s := prefix + " " + status + " " + statusText + " " + body;
    assert s[0] == prefix[0];
    assert TrimStart(s) == s;
  }
}
