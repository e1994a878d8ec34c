/** The object keys of evidence uploads, and the strings they are written as. */
module EvidenceKeys {
  import opened Json

  datatype Evidence = Evidence(claim: string, evidence: string)

  /** A key of one evidence record: where uploads land, or a name under its final directory. */
  datatype Key =
    | Staging(owner: Evidence)
    | Finalised(owner: Evidence, name: string)

  predicate PathSafe(id: string) {
    id != "" && '/' !in id && '\\' !in id
  }

  predicate Safe(e: Evidence) {
    PathSafe(e.claim) && PathSafe(e.evidence)
  }

  function Directory(e: Evidence): string {
    "claims/" + e.claim + "/evidence/" + e.evidence + "/"
  }

  function FinalDirectory(e: Evidence): string {
    Directory(e) + "finalised/"
  }

  function Render(key: Key): string {
    match key
    case Staging(e) => Directory(e) + "staging"
    case Finalised(e, name) => FinalDirectory(e) + name
  }

  predicate HexDigit(c: char) {
    '0' <= c <= '9' || 'a' <= c <= 'f'
  }

  predicate Digest(s: string) {
    |s| == 64 && forall c | c in s :: HexDigit(c)
  }

  function LowerChar(c: char): char {
    if 'A' <= c <= 'Z' then c - 'A' + 'a' else c
  }

  function Lower(s: string): (r: string)
    ensures |r| == |s| && forall i | 0 <= i < |s| :: r[i] == LowerChar(s[i])
  {
    seq(|s|, i requires 0 <= i < |s| => LowerChar(s[i]))
  }

  const SCHEME := "sha256:"

  /** The digest a checksum names, once it has the shape of one. */
  function DigestOf(checksum: string): string {
    Lower(if SCHEME <= checksum then checksum[|SCHEME|..] else checksum)
  }

  lemma {:induction false} CanonicalDigest(digest: string)
    requires Digest(digest)
    ensures Lower(digest) == digest && Lower(SCHEME + digest) == SCHEME + digest
    ensures DigestOf(SCHEME + digest) == digest
  {
    assert forall i | 0 <= i < |digest| :: digest[i] in digest;
    assert Lower(digest) == digest;
    assert (SCHEME + digest)[|SCHEME|..] == digest;
  }

  function FinalKey(e: Evidence, checksum: string): Key {
    Finalised(e, DigestOf(checksum))
  }

  const GENERATED := "generated"

  lemma {:induction false} GeneratedIsNoDigest(checksum: string)
    requires Digest(DigestOf(checksum))
    ensures DigestOf(checksum) != GENERATED
  {
  }

  // The rendering is injective on path-safe identifiers.

  function SlashAt(s: string): (r: nat)
    requires '/' in s
    ensures r < |s| && s[r] == '/' && forall i | 0 <= i < r :: s[i] != '/'
  {
    if s[0] == '/' then 0 else 1 + SlashAt(s[1..])
  }

  lemma {:induction false} SlashAfter(a: string, x: string)
    requires '/' !in a
    ensures '/' in a + "/" + x && SlashAt(a + "/" + x) == |a|
  {
    var s := a + "/" + x;
    assert s[|a|] == '/';
    assert forall i | 0 <= i < |a| :: s[i] == a[i] && a[i] in a;
  }

  lemma {:induction false} FirstSlash(a: string, x: string, b: string, y: string)
    requires '/' !in a && '/' !in b && a + "/" + x == b + "/" + y
    ensures a == b && x == y
  {
    SlashAfter(a, x);
    SlashAfter(b, y);
    var s := a + "/" + x;
    assert a == s[..|a|] && x == s[|a| + 1..];
    assert b == (b + "/" + y)[..|b|] && y == (b + "/" + y)[|b| + 1..];
  }

  function Tail(key: Key): string {
    match key
    case Staging(_) => "staging"
    case Finalised(_, name) => "finalised/" + name
  }

  function AfterClaim(e: Evidence, x: string): string {
    "evidence/" + e.evidence + "/" + x
  }

  lemma {:induction false} SameAfterClaim(e: Evidence, x: string, d: Evidence, y: string)
    requires Safe(e) && Safe(d) && AfterClaim(e, x) == AfterClaim(d, y)
    ensures e.evidence == d.evidence && x == y
  {
    assert e.evidence + "/" + x == AfterClaim(e, x)[9..];
    assert d.evidence + "/" + y == AfterClaim(d, y)[9..];
    FirstSlash(e.evidence, x, d.evidence, y);
  }

  lemma {:induction false} ClaimFirst(e: Evidence, x: string)
    ensures e.claim + "/" + AfterClaim(e, x) == (Directory(e) + x)[7..]
  {
  }

  lemma {:induction false} RenderParts(e: Evidence, x: string, d: Evidence, y: string)
    requires Safe(e) && Safe(d) && Directory(e) + x == Directory(d) + y
    ensures e == d && x == y
  {
    ClaimFirst(e, x);
    ClaimFirst(d, y);
    FirstSlash(e.claim, AfterClaim(e, x), d.claim, AfterClaim(d, y));
    SameAfterClaim(e, x, d, y);
  }

  lemma {:induction false} RenderIsInjective(a: Key, b: Key)
    requires Safe(a.owner) && Safe(b.owner) && Render(a) == Render(b)
    ensures a == b
  {
    assert Render(a) == Directory(a.owner) + Tail(a);
    assert Render(b) == Directory(b.owner) + Tail(b);
    RenderParts(a.owner, Tail(a), b.owner, Tail(b));
    assert Tail(a)[0] == if a.Finalised? then 'f' else 's';
    assert Tail(b)[0] == if b.Finalised? then 'f' else 's';
    if a.Finalised? {
      assert a.name == Tail(a)[10..] && b.name == Tail(b)[10..];
    }
  }

  /** The prefix test of read and delete admits exactly the final keys of that evidence record. */
  lemma {:induction false} FinalPrefix(e: Evidence, key: Key)
    requires Safe(e) && Safe(key.owner)
    ensures FinalDirectory(e) <= Render(key) <==> key.Finalised? && key.owner == e
  {
    if FinalDirectory(e) <= Render(key) {
      var rest := Render(key)[|FinalDirectory(e)|..];
      assert Render(key) == Render(Finalised(e, rest));
      RenderIsInjective(key, Finalised(e, rest));
    }
  }

  /** The final key of the evidence record that a stored string names, by its prefix. */
  function KeyIn(e: Evidence, stored: string): Option<Key> {
    if FinalDirectory(e) <= stored then Some(Finalised(e, stored[|FinalDirectory(e)|..])) else None
  }

  /** The key found renders to the string, and any key that does is found exactly when it is a final key of the record. */
  lemma {:induction false} KeyInIsExact(e: Evidence, stored: string, key: Key)
    requires Safe(e)
    ensures KeyIn(e, stored) == Some(key) ==> Render(key) == stored && key.Finalised? && key.owner == e
    ensures Safe(key.owner) && Render(key) == stored ==> (KeyIn(e, stored) == Some(key) <==> key.Finalised? && key.owner == e)
  {
    if KeyIn(e, stored) == Some(key) {
      assert stored == FinalDirectory(e) + stored[|FinalDirectory(e)|..];
    }
    if Safe(key.owner) && Render(key) == stored {
      FinalPrefix(e, key);
    }
  }
}
