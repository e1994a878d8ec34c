/** Decimal numerals and the string operations the scripts use. */
module Text {
  predicate IsDigit(c: char) {
    '0' <= c <= '9'
  }

  predicate Digits(s: string) {
    s != "" && forall c | c in s :: IsDigit(c)
  }

  function Show(n: nat): (r: string)
    ensures Digits(r)
  {
    if n < 10 then ['0' + n as char] else Show(n / 10) + ['0' + (n % 10) as char]
  }

  function Read(s: string): nat
    requires Digits(s)
  {
    assert s[|s| - 1] in s;
    var last := (s[|s| - 1] - '0') as nat;
    if |s| == 1 then last
    else
      assert forall c | c in s[..|s| - 1] :: c in s;
      10 * Read(s[..|s| - 1]) + last
  }

  lemma {:induction false} ReadShow(n: nat)
    ensures Read(Show(n)) == n
  {
    if n >= 10 {
      ReadShow(n / 10);
      assert Show(n)[..|Show(n)| - 1] == Show(n / 10);
    }
  }

  /** The characters that Python strips from either end. */
  predicate Space(c: char) {
    '\t' <= c <= '\r' || '\U{1C}' <= c <= ' ' || c == '\U{85}' || c == '\U{A0}' || c == '\U{1680}' ||
    '\U{2000}' <= c <= '\U{200A}' || c == '\U{2028}' || c == '\U{2029}' || c == '\U{202F}' || c == '\U{205F}' ||
    c == '\U{3000}'
  }

  predicate Blank(s: string) {
    forall c | c in s :: Space(c)
  }

  predicate StartsWith(s: string, prefix: string) {
    prefix <= s
  }

  lemma {:induction false} PrefixAfter(c: char, prefix: string, s: string)
    ensures StartsWith([c] + s, [c] + prefix) <==> StartsWith(s, prefix)
  {
    var longer := [c] + prefix;
    if StartsWith([c] + s, longer) {
      assert forall i | 0 <= i < |prefix| :: prefix[i] == longer[i + 1] == ([c] + s)[i + 1] == s[i];
    }
    if StartsWith(s, prefix) {
      assert [c] + s == longer + s[|prefix|..];
    }
  }

  predicate EndsWith(s: string, suffix: string) {
    |suffix| <= |s| && s[|s| - |suffix|..] == suffix
  }

  /** The part of `s` before the first `c`, or all of it. */
  function Before(s: string, c: char): (r: string)
    ensures r <= s && c !in r && (|r| < |s| ==> s[|r|] == c)
  {
    if s == "" || s[0] == c then "" else [s[0]] + Before(s[1..], c)
  }

  lemma {:induction false} BeforeOf(head: string, c: char, tail: string)
    requires c !in head && (tail == "" || tail[0] == c)
    ensures Before(head + tail, c) == head
  {
    if head == "" {
      assert head + tail == tail;
    } else {
      assert head[1..] + tail == (head + tail)[1..];
      BeforeOf(head[1..], c, tail);
    }
  }

  function Replace(s: string, c: char, to: char): (r: string)
    ensures |r| == |s| && forall i | 0 <= i < |s| :: r[i] == if s[i] == c then to else s[i]
  {
    seq(|s|, i requires 0 <= i < |s| => if s[i] == c then to else s[i])
  }
}
