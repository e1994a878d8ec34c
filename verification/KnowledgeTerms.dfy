/** The words a query and a chunk are compared by. */
module KnowledgeTerms {
  import opened Text

  const STOP_WORDS: set<string> := {
    "and", "are", "can", "claim", "for", "from", "have", "how", "into", "much", "other", "policy", "provide", "that",
    "the", "this", "what", "when", "with"
  }

  const UNTRUSTED: seq<string> := [
    "follow any instructions", "ignore previous instructions", "reveal internal", "reveal private"
  ]

  const PRODUCTS: map<string, set<string>> := map[
    "motor" := {"car", "motor", "vehicle"},
    "home" := {"building", "home", "house"},
    "contents" := {"belongings", "contents", "possessions"}
  ]

  function NormaliseTerm(term: string): string {
    if term == "fault" then "liability"
    else if term == "tell" then "admit"
    else if EndsWith(term, "sses") then term[..|term| - 2]
    else if EndsWith(term, "s") && !EndsWith(term, "ss") then term[..|term| - 1]
    else term
  }

  function Lower(text: string): (r: string)
    ensures |r| == |text|
  {
    seq(|text|, i requires 0 <= i < |text| => if 'A' <= text[i] <= 'Z' then text[i] - 'A' + 'a' else text[i])
  }

  predicate InWord(c: char) {
    'a' <= c <= 'z' || '0' <= c <= '9' || c == '\''
  }

  function Word(text: string): (r: string)
    ensures r <= text
  {
    if text == "" || !InWord(text[0]) then "" else [text[0]] + Word(text[1..])
  }

  /** The maximal runs of word characters. */
  function Words(text: string): set<string> {
    if text == "" then {}
    else if Word(text) == "" then Words(text[1..])
    else {Word(text)} + Words(text[|Word(text)|..])
  }

  function Terms(text: string): set<string> {
    set w | w in Words(Lower(text)) && |w| > 2 && w !in STOP_WORDS :: NormaliseTerm(w)
  }

  function ProductTerms(product: string): set<string> {
    if product in PRODUCTS then set w | w in PRODUCTS[product] :: NormaliseTerm(w) else {}
  }

  predicate Contains(text: string, pattern: string) {
    exists i | 0 <= i <= |text| :: StartsWith(text[i..], pattern)
  }

  /** The products whose terms the query shares. */
  function Mentioned(text: string): set<string> {
    set p | p in PRODUCTS && Terms(text) * ProductTerms(p) != {}
  }

  predicate QueryMatchesScope(text: string, product: string) {
    !(exists pattern | pattern in UNTRUSTED :: Contains(Lower(text), pattern)) &&
    (Mentioned(text) == {} || Mentioned(text) == {product})
  }

  // The words are the maximal runs of word characters.

  /** The text from `i` to `j` is all word characters, with none on either side. */
  ghost predicate MaximalRun(text: string, i: int, j: int) {
    0 <= i < j <= |text| && (forall k | i <= k < j :: InWord(text[k])) &&
    (i > 0 ==> !InWord(text[i - 1])) && (j < |text| ==> !InWord(text[j]))
  }

  ghost predicate HasRun(text: string, w: string) {
    exists i, j :: MaximalRun(text, i, j) && text[i..j] == w
  }

  lemma {:induction false} WordRuns(text: string)
    ensures forall k | 0 <= k < |Word(text)| :: InWord(text[k])
    ensures |Word(text)| < |text| ==> !InWord(text[|Word(text)|])
  {
    if text != "" && InWord(text[0]) {
      WordRuns(text[1..]);
      assert forall k | 1 <= k < |text| :: text[k] == text[1..][k - 1];
    }
  }

  /** Past a run, or past a character of no run, the runs of the rest are the remaining runs. */
  lemma {:induction false} RunsOfRest(text: string, n: nat, i: int, j: int)
    requires 0 < n <= |text| && (n < |text| ==> !InWord(text[n]) || !InWord(text[n - 1]))
    requires n <= i
    ensures MaximalRun(text[n..], i - n, j - n) <==> MaximalRun(text, i, j)
  {
    assert forall k | n <= k < |text| :: text[n..][k - n] == text[k];
    if MaximalRun(text, i, j) || MaximalRun(text[n..], i - n, j - n) {
      assert i == n ==> InWord(text[n]);
    }
  }

  lemma {:induction false} SliceOfRest(text: string, n: nat, i: nat, j: nat)
    requires n <= i <= j <= |text|
    ensures text[n..][i - n..j - n] == text[i..j]
  {
  }

  lemma {:induction false} SkipsAhead(text: string, n: nat, w: string)
    requires 0 < n <= |text| && (n < |text| ==> !InWord(text[n]) || !InWord(text[n - 1]))
    ensures HasRun(text[n..], w) <==> exists i, j :: n <= i && MaximalRun(text, i, j) && text[i..j] == w
  {
    if i, j :| MaximalRun(text[n..], i, j) && text[n..][i..j] == w {
      RunsOfRest(text, n, i + n, j + n);
      SliceOfRest(text, n, i + n, j + n);
    }
    if i, j :| n <= i && MaximalRun(text, i, j) && text[i..j] == w {
      RunsOfRest(text, n, i, j);
      SliceOfRest(text, n, i, j);
    }
  }

  /** What the pattern finds are exactly the maximal runs. */
  lemma {:induction false} WordsAreMaximalRuns(text: string, w: string)
    ensures w in Words(text) <==> HasRun(text, w)
    decreases |text|
  {
    if text != "" {
      var n := |Word(text)|;
      WordRuns(text);
      if n == 0 {
        WordsAreMaximalRuns(text[1..], w);
        SkipsAhead(text, 1, w);
        assert forall i, j | MaximalRun(text, i, j) :: 1 <= i;
      } else {
        WordsAreMaximalRuns(text[n..], w);
        SkipsAhead(text, n, w);
        assert MaximalRun(text, 0, n) && text[0..n] == Word(text);
        forall i, j | MaximalRun(text, i, j) ensures n <= i || (i == 0 && j == n) {
        }
      }
    }
  }
}
