/** What a search promises: the head of one ranking, the same for every order of the sources, or nothing at all. */
module KnowledgeSearch {
  import opened KnowledgeRetrieval

  // The ranking holds every matching chunk.

  lemma {:induction false} ApplicableHas(sources: seq<Source>, q: Query, s: Source)
    ensures s in Applicable(sources, q) <==> s in sources && SourceIsApplicable(s, q)
  {
    if sources != [] {
      ApplicableHas(sources[..|sources| - 1], q, s);
    }
  }

  lemma {:induction false} ScoresHave(lex: Lexicon, q: Query, terms: set<string>, chunks: seq<Chunk>, x: Scored)
    ensures x in Scores(lex, q, terms, chunks) <==>
      x.chunk in chunks && ChunkIsApplicable(x.chunk, q) && x == Score(lex, terms, x.chunk) && x.score > 0
  {
    if chunks != [] {
      ScoresHave(lex, q, terms, chunks[..|chunks| - 1], x);
    }
  }

  /** The chunk belongs to the validated index of the source and shares a term with the query. */
  ghost predicate Matches(store: Store, lex: Lexicon, terms: set<string>, s: Source, x: Scored) {
    Validated(store, s).Ok? && x.chunk in Validated(store, s).value && x == Score(lex, terms, x.chunk) && x.score > 0
  }

  lemma {:induction false} ScoresOfAllHave(
    store: Store, lex: Lexicon, q: Query, terms: set<string>, sources: seq<Source>, x: Scored)
    requires ScoresOfAll(store, lex, q, terms, sources).Ok? && forall s | s in sources :: SourceIsApplicable(s, q)
    ensures x in ScoresOfAll(store, lex, q, terms, sources).value <==>
      exists s | s in sources :: Matches(store, lex, terms, s, x)
  {
    if sources != [] {
      var last := sources[|sources| - 1];
      assert last in sources;
      ScoresOfAllHave(store, lex, q, terms, sources[..|sources| - 1], x);
      ScoresHave(lex, q, terms, Validated(store, last).value, x);
      if Matches(store, lex, terms, last, x) {
        ChunkFilterIsRedundant(store, last, q, x.chunk);
      }
    }
  }

  lemma {:induction false} ScoresOfAllFail(
    store: Store, lex: Lexicon, q: Query, terms: set<string>, sources: seq<Source>)
    ensures ScoresOfAll(store, lex, q, terms, sources).Err? <==> exists s | s in sources :: Validated(store, s).Err?
  {
    if sources != [] {
      assert sources[|sources| - 1] in sources;
      ScoresOfAllFail(store, lex, q, terms, sources[..|sources| - 1]);
    }
  }

  /** The search reaches the indexes at all. */
  predicate Reaches(lex: Lexicon, sources: seq<Source>, q: Query) {
    Answerable(lex, q) && Applicable(sources, q) != [] && QueryTerms(lex, q) != {}
  }

  /** One applicable source that cannot be validated, and no chunk of any source is returned. */
  lemma {:induction false} FailsClosed(store: Store, lex: Lexicon, sources: seq<Source>, q: Query)
    ensures Ranking(store, lex, sources, q).Err? <==>
      Reaches(lex, sources, q) && exists s | s in sources :: SourceIsApplicable(s, q) && Validated(store, s).Err?
  {
    if Reaches(lex, sources, q) {
      ScoresOfAllFail(store, lex, q, QueryTerms(lex, q), Applicable(sources, q));
      forall s ensures s in Applicable(sources, q) <==> s in sources && SourceIsApplicable(s, q) {
        ApplicableHas(sources, q, s);
      }
    }
  }

  /** The ranking is sorted and holds exactly the chunks that match, whether or not the second filter is applied. */
  lemma {:induction false} RankingIsComplete(store: Store, lex: Lexicon, sources: seq<Source>, q: Query, x: Scored)
    requires Reaches(lex, sources, q) && Ranking(store, lex, sources, q).Ok?
    ensures Ranked(Ranking(store, lex, sources, q).value)
    ensures x in Ranking(store, lex, sources, q).value <==>
      exists s | s in sources && SourceIsApplicable(s, q) :: Matches(store, lex, QueryTerms(lex, q), s, x)
  {
    var terms, applicable := QueryTerms(lex, q), Applicable(sources, q);
    forall s ensures s in applicable <==> s in sources && SourceIsApplicable(s, q) {
      ApplicableHas(sources, q, s);
    }
    var scored := ScoresOfAll(store, lex, q, terms, applicable).value;
    ScoresOfAllHave(store, lex, q, terms, applicable, x);
    SortRanks(scored);
    assert x in Sort(scored) <==> x in multiset(Sort(scored));
    assert x in scored <==> x in multiset(scored);
  }

  // The cut.

  /** No matching chunk left out ranks before one returned. */
  lemma {:induction false} NothingOutranksTheReturned(ranking: seq<Scored>, limit: int, i: nat, j: nat)
    requires Ranked(ranking) && i < |Cut(ranking, limit)| <= j < |ranking|
    ensures Cut(ranking, limit)[i] == ranking[i] && Precedes(ranking[i], ranking[j])
  {
  }

  /** A smaller limit returns a prefix of what a larger one returns. */
  lemma {:induction false} SmallerLimitIsPrefix(ranking: seq<Scored>, small: int, large: int)
    requires small <= large
    ensures Chunks(Cut(ranking, small)) <= Chunks(Cut(ranking, large))
  {
  }

  // The order of the sources.

  /** A chunk identifier tells the matching chunks apart. */
  ghost predicate DistinctIds(scored: seq<Scored>) {
    forall x, y | x in scored && y in scored && x.chunk.id == y.chunk.id :: x == y
  }

  /** Without ties there is one way to rank. */
  lemma {:induction false} RankingIsUnique(a: seq<Scored>, b: seq<Scored>)
    requires Ranked(a) && Ranked(b) && multiset(a) == multiset(b) && DistinctIds(a)
    ensures a == b
  {
    assert |a| == |multiset(a)| == |multiset(b)| == |b|;
    if a != [] {
      FirstIsFirst(a, b);
      SameRest(a, b);
      RankingIsUnique(a[1..], b[1..]);
    }
  }

  lemma {:induction false} SameRest(a: seq<Scored>, b: seq<Scored>)
    requires a != [] && b != [] && a[0] == b[0] && multiset(a) == multiset(b)
    ensures multiset(a[1..]) == multiset(b[1..])
  {
    assert a == [a[0]] + a[1..] && b == [b[0]] + b[1..];
    assert multiset(a[1..]) == multiset(a) - multiset{a[0]};
    assert multiset(b[1..]) == multiset(b) - multiset{b[0]};
  }

  lemma {:induction false} FirstIsFirst(a: seq<Scored>, b: seq<Scored>)
    requires Ranked(a) && Ranked(b) && multiset(a) == multiset(b) && DistinctIds(a) && a != [] && b != []
    ensures a[0] == b[0]
  {
    assert a[0] in multiset(b) && b[0] in multiset(a);
    var i :| 0 <= i < |b| && b[i] == a[0];
    var j :| 0 <= j < |a| && a[j] == b[0];
    if i > 0 && j > 0 {
      assert Precedes(a[0], a[j]) && Precedes(b[0], b[i]);
      PrecedesBoth(a[0], b[0]);
    }
  }

  /** What the elements of a sequence contribute, in any order. */
  function Gather<S, T>(f: S -> multiset<T>, s: seq<S>): multiset<T> {
    if s == [] then multiset{} else Gather(f, s[..|s| - 1]) + f(s[|s| - 1])
  }

  lemma {:induction false} GatherSplit<S, T>(f: S -> multiset<T>, a: seq<S>, b: seq<S>)
    ensures Gather(f, a + b) == Gather(f, a) + Gather(f, b)
  {
    if b == [] {
      assert a + b == a;
    } else {
      var n := |b| - 1;
      assert (a + b)[..|a| + n] == a + b[..n];
      GatherSplit(f, a, b[..n]);
    }
  }

  lemma {:induction false} GatherMiddle<S, T>(f: S -> multiset<T>, left: seq<S>, x: S, right: seq<S>)
    ensures Gather(f, left + ([x] + right)) == Gather(f, left + right) + f(x)
  {
    GatherSplit(f, left, [x] + right);
    GatherSplit(f, [x], right);
    GatherSplit(f, left, right);
    assert [x][..0] == [];
    assert Gather(f, [x]) == f(x);
  }

  lemma {:induction false} SameSize<S>(a: seq<S>, b: seq<S>)
    requires multiset(a) == multiset(b)
    ensures |a| == |b| && forall x :: x in a <==> x in b
  {
    assert |a| == |multiset(a)| == |multiset(b)| == |b|;
    forall x ensures x in a <==> x in b {
      assert x in a <==> x in multiset(a);
      assert x in b <==> x in multiset(b);
    }
  }

  lemma {:induction false} GatherIgnoresOrder<S, T>(f: S -> multiset<T>, a: seq<S>, b: seq<S>)
    requires multiset(a) == multiset(b)
    ensures Gather(f, a) == Gather(f, b)
    decreases |a|
  {
    SameSize(a, b);
    if a != [] {
      var n := |a| - 1;
      assert a[n] in b;
      var i :| 0 <= i < |b| && b[i] == a[n];
      LastElsewhere(a, b, i);
      GatherIgnoresOrder(f, a[..n], b[..i] + b[i + 1..]);
      GatherMiddle(f, b[..i], a[n], b[i + 1..]);
    }
  }

  lemma {:induction false} LastElsewhere<S>(a: seq<S>, b: seq<S>, i: nat)
    requires a != [] && multiset(a) == multiset(b) && i < |b| && b[i] == a[|a| - 1]
    ensures b == b[..i] + ([b[i]] + b[i + 1..])
    ensures multiset(a[..|a| - 1]) == multiset(b[..i] + b[i + 1..])
  {
    var n := |a| - 1;
    assert a == a[..n] + [a[n]];
    assert b == b[..i] + ([b[i]] + b[i + 1..]);
    assert multiset(a[..n]) == multiset(a) - multiset{a[n]};
    assert multiset(b[..i] + b[i + 1..]) == multiset(b) - multiset{b[i]};
  }

  function Contribution(store: Store, lex: Lexicon, q: Query, terms: set<string>): Source -> multiset<Scored> {
    (s: Source) => if Validated(store, s).Ok? then multiset(Scores(lex, q, terms, Validated(store, s).value)) else multiset{}
  }

  lemma {:induction false} ScoresGathered(
    store: Store, lex: Lexicon, q: Query, terms: set<string>, sources: seq<Source>)
    requires ScoresOfAll(store, lex, q, terms, sources).Ok?
    ensures multiset(ScoresOfAll(store, lex, q, terms, sources).value) == Gather(Contribution(store, lex, q, terms), sources)
  {
    if sources != [] {
      ScoresGathered(store, lex, q, terms, sources[..|sources| - 1]);
    }
  }

  function Admission(q: Query): Source -> multiset<Source> {
    (s: Source) => if SourceIsApplicable(s, q) then multiset{s} else multiset{}
  }

  lemma {:induction false} ApplicableGathered(sources: seq<Source>, q: Query)
    ensures multiset(Applicable(sources, q)) == Gather(Admission(q), sources)
  {
    if sources != [] {
      ApplicableGathered(sources[..|sources| - 1], q);
    }
  }

  /** When chunk identifiers are distinct, the order in which the sources are listed does not matter. */
  lemma {:induction false} SourceOrderDoesNotMatter(
    store: Store, lex: Lexicon, a: seq<Source>, b: seq<Source>, q: Query)
    requires multiset(a) == multiset(b)
    requires Ranking(store, lex, a, q).Ok? ==> DistinctIds(Ranking(store, lex, a, q).value)
    ensures Ranking(store, lex, a, q).Ok? <==> Ranking(store, lex, b, q).Ok?
    ensures Ranking(store, lex, a, q).Ok? ==> Ranking(store, lex, a, q) == Ranking(store, lex, b, q)
  {
    var applicableA, applicableB := Applicable(a, q), Applicable(b, q);
    GatherIgnoresOrder(Admission(q), a, b);
    ApplicableGathered(a, q);
    ApplicableGathered(b, q);
    SameSize(applicableA, applicableB);
    if Reaches(lex, a, q) {
      var terms := QueryTerms(lex, q);
      ScoresOfAllFail(store, lex, q, terms, applicableA);
      ScoresOfAllFail(store, lex, q, terms, applicableB);
      if Ranking(store, lex, a, q).Ok? {
        GatherIgnoresOrder(Contribution(store, lex, q, terms), applicableA, applicableB);
        ScoresGathered(store, lex, q, terms, applicableA);
        ScoresGathered(store, lex, q, terms, applicableB);
        SortRanks(ScoresOfAll(store, lex, q, terms, applicableA).value);
        SortRanks(ScoresOfAll(store, lex, q, terms, applicableB).value);
        RankingIsUnique(Ranking(store, lex, a, q).value, Ranking(store, lex, b, q).value);
      }
    }
  }
}
