/** String operations of the Python code that several components share. */
module Texts {

  /** The characters that Python's `str.strip` removes. */
  predicate Blank(c: char) {
    c == ' ' || '\U{9}' <= c <= '\U{D}' || '\U{1C}' <= c <= '\U{1F}' || c == '\U{85}' || c == '\U{A0}'
    || c == '\U{1680}' || '\U{2000}' <= c <= '\U{200A}' || c == '\U{2028}' || c == '\U{2029}'
    || c == '\U{202F}' || c == '\U{205F}' || c == '\U{3000}'
  }

  predicate AllBlank(s: string) {
    forall i :: 0 <= i < |s| ==> Blank(s[i])
  }

  /** The length of the blank prefix. */
  function Lead(s: string): (n: nat)
    ensures n <= |s| && AllBlank(s[..n]) && (n < |s| ==> !Blank(s[n]))
  {
    if s == [] || !Blank(s[0]) then 0
    else
      var n := Lead(s[1..]);
      assert s[..1 + n] == [s[0]] + s[1..][..n];
      1 + n
  }

  /** The length without the blank suffix. */
  function Trail(s: string): (n: nat)
    ensures n <= |s| && AllBlank(s[n..]) && (n > 0 ==> !Blank(s[n - 1]))
  {
    if s == [] || !Blank(s[|s| - 1]) then |s| else Trail(s[..|s| - 1])
  }

  /** `str.strip`. */
  function Strip(s: string): string {
    var rest := s[Lead(s)..];
    rest[..Trail(rest)]
  }

  lemma StripEmptyIffBlank(s: string)
    ensures Strip(s) == "" <==> AllBlank(s)
  {
    var n := Lead(s);
    var rest := s[n..];
    assert s[..|s|] == s && rest[0..] == rest;
    assert n < |s| ==> rest[0] == s[n];
  }

  lemma StripIsSlice(s: string)
    ensures Lead(s) + |Strip(s)| <= |s| && Strip(s) == s[Lead(s)..Lead(s) + |Strip(s)|]
  {
  }

  lemma StrippedEnds(s: string)
    requires Strip(s) != ""
    ensures !Blank(Strip(s)[0]) && !Blank(Strip(s)[|Strip(s)| - 1])
  {
  }

  function Join(lines: seq<string>): string {
    if lines == [] then "" else if |lines| == 1 then lines[0] else lines[0] + "\n" + Join(lines[1..])
  }

  function Newlines(s: string): nat {
    if s == [] then 0 else Newlines(s[..|s| - 1]) + if s[|s| - 1] == '\n' then 1 else 0
  }

  /** The suffix half of `str.strip`. */
  function RStrip(s: string): string {
    s[..Trail(s)]
  }

  lemma {:induction false} NewlinesJoin(a: string, b: string)
    ensures Newlines(a + b) == Newlines(a) + Newlines(b)
  {
    if b == "" {
      assert a + b == a;
    } else {
      assert (a + b)[..|a + b| - 1] == a + b[..|b| - 1];
      NewlinesJoin(a, b[..|b| - 1]);
    }
  }

  lemma {:induction false} NoNewlines(s: string)
    ensures Newlines(s) == 0 <==> '\n' !in s
  {
    if s != "" {
      assert s == s[..|s| - 1] + [s[|s| - 1]];
      NoNewlines(s[..|s| - 1]);
    }
  }

  /** `str(n)`. */
  function Decimal(n: nat): string {
    if n < 10 then ["0123456789"[n]] else Decimal(n / 10) + ["0123456789"[n % 10]]
  }
}
