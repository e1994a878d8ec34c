/** Search over governed knowledge: validated indexes, two filters, a score, a ranking and a cut. */
module KnowledgeRetrieval {
  import opened Json
  import Strings = Text
  import Lexical = KnowledgeTerms

  /** How text is read: its terms, the terms of a product, and whether a query stays within its product. */
  datatype Lexicon = Lexicon(terms: string -> set<string>, product: string -> set<string>, inScope: (string, string) -> bool)

  const LEXICON := Lexicon(Lexical.Terms, Lexical.ProductTerms, Lexical.QueryMatchesScope)

  datatype Source = Source(
    document: string, version: string, title: string, documentType: string, uri: string, jurisdiction: string,
    insurer: Option<string>, product: Option<string>, effectiveFrom: Option<int>, effectiveTo: Option<int>,
    authority: string, visibility: string, approved: bool, checksum: Option<string>, fingerprint: string)

  /** A stored chunk carries its own copy of what governs its source. */
  datatype Chunk = Chunk(
    id: string, document: string, version: string, title: string, documentType: string, uri: string,
    jurisdiction: string, insurer: Option<string>, product: Option<string>, effectiveFrom: Option<int>,
    effectiveTo: Option<int>, authority: string, visibility: string, checksum: string, section: string, text: string)

  datatype Query = Query(
    text: string, jurisdiction: string, visibility: string, document: Option<string>, authority: Option<string>,
    version: Option<string>, insurer: Option<string>, product: Option<string>, at: Option<int>, limit: int)

  /** The ingestion state beside an index, when it is an object, or is JSON at all. */
  datatype State =
    | State(document: string, version: string, checksum: Option<string>, digest: string, fingerprint: string, pipeline: string)
    | NotObject
    | Garbled

  /** The stored index of a source; `chunks` is None when a line cannot be read. */
  datatype Index = Index(chunks: Option<seq<Chunk>>, digest: string)

  datatype Stored<T> = Offline | Missing | Present(value: T)

  datatype Store = Store(index: (string, string) -> Stored<Index>, state: (string, string) -> Stored<State>)

  datatype Fault = Unavailable | Incomplete | Untrusted | StateMismatch | SourceMismatch | Invalid

  datatype Result<T> = Ok(value: T) | Err(fault: Fault)

  const PIPELINE := "markdown-sections-v1+keyword-index-v1+state-v3"

  function Folded(s: string): string {
    Lexical.Lower(s)
  }

  // Which sources and chunks a query may see.

  predicate SourceIsApplicable(s: Source, q: Query) {
    q.at.Some? && (q.document.Some? ==> s.document == q.document.value) && s.jurisdiction == q.jurisdiction &&
    s.visibility == q.visibility && Some(s.authority) == q.authority && Some(s.version) == q.version &&
    s.insurer == q.insurer && s.product == q.product &&
    (s.effectiveFrom.Some? ==> q.at.value >= s.effectiveFrom.value) &&
    (s.effectiveTo.Some? ==> q.at.value < s.effectiveTo.value)
  }

  predicate ChunkIsApplicable(c: Chunk, q: Query) {
    q.at.Some? && c.jurisdiction == q.jurisdiction && c.visibility == q.visibility &&
    (q.document.Some? ==> c.document == q.document.value) && Some(c.authority) == q.authority &&
    Some(c.version) == q.version && c.insurer == q.insurer && c.product == q.product &&
    (c.effectiveFrom.Some? ==> q.at.value >= c.effectiveFrom.value) &&
    (c.effectiveTo.Some? ==> q.at.value < c.effectiveTo.value)
  }

  predicate Trusts(state: State, s: Source, digest: string) {
    state.State? && state.document == s.document && state.version == s.version && state.checksum == s.checksum &&
    state.digest == digest && state.fingerprint == s.fingerprint && state.pipeline == PIPELINE
  }

  predicate ChunkMatchesSource(c: Chunk, s: Source) {
    c.document == s.document && c.title == s.title && c.documentType == s.documentType && c.version == s.version &&
    c.uri == s.uri && c.jurisdiction == s.jurisdiction && c.insurer == s.insurer && c.product == s.product &&
    c.effectiveFrom == s.effectiveFrom && c.effectiveTo == s.effectiveTo && c.authority == s.authority &&
    c.visibility == s.visibility && s.checksum.Some? && Folded(c.checksum) == Folded(s.checksum.value)
  }

  function Validated(store: Store, s: Source): Result<seq<Chunk>> {
    match store.index(s.document, s.version)
    case Offline => Err(Unavailable)
    case Missing => Err(Incomplete)
    case Present(index) =>
      match store.state(s.document, s.version)
      case Offline => Err(Unavailable)
      case Missing => Err(Untrusted)
      case Present(state) =>
        if state.Garbled? then Err(Invalid)
        else if !Trusts(state, s, index.digest) then Err(StateMismatch)
        else if index.chunks.None? then Err(Invalid)
        else if exists c | c in index.chunks.value :: !ChunkMatchesSource(c, s) then Err(SourceMismatch)
        else Ok(index.chunks.value)
  }

  /** The second filter passes a chunk of a validated source exactly when the first passes its source. */
  lemma {:induction false} ChunkFilterIsRedundant(store: Store, s: Source, q: Query, c: Chunk)
    requires Validated(store, s).Ok? && c in Validated(store, s).value
    ensures ChunkIsApplicable(c, q) <==> SourceIsApplicable(s, q)
  {
    assert ChunkMatchesSource(c, s);
  }

  // Scoring and ranking.

  datatype Scored = Scored(score: nat, section: nat, chunk: Chunk)

  function Score(lex: Lexicon, terms: set<string>, c: Chunk): Scored {
    var section := |terms * lex.terms(c.section)|;
    Scored(4 * section + |terms * lex.terms(c.text)|, section, c)
  }

  /** The scored chunks that pass the second filter and share a term with the query. */
  function Scores(lex: Lexicon, q: Query, terms: set<string>, chunks: seq<Chunk>): seq<Scored> {
    if chunks == [] then []
    else
      var last := chunks[|chunks| - 1];
      Scores(lex, q, terms, chunks[..|chunks| - 1]) +
      if ChunkIsApplicable(last, q) && Score(lex, terms, last).score > 0 then [Score(lex, terms, last)] else []
  }

  function ScoresOfAll(store: Store, lex: Lexicon, q: Query, terms: set<string>, sources: seq<Source>): Result<seq<Scored>> {
    if sources == [] then Ok([])
    else
      match ScoresOfAll(store, lex, q, terms, sources[..|sources| - 1])
      case Err(f) => Err(f)
      case Ok(before) =>
        match Validated(store, sources[|sources| - 1])
        case Err(f) => Err(f)
        case Ok(chunks) => Ok(before + Scores(lex, q, terms, chunks))
  }

  /** More matching section terms, then a higher score, then the smaller identifier. */
  predicate Precedes(a: Scored, b: Scored) {
    a.section > b.section ||
    (a.section == b.section && (a.score > b.score || (a.score == b.score && Below(a.chunk.id, b.chunk.id))))
  }

  ghost predicate Ranked(s: seq<Scored>) {
    forall i, j | 0 <= i < j < |s| :: Precedes(s[i], s[j])
  }

  lemma {:induction false} PrecedesTotal(a: Scored, b: Scored)
    ensures Precedes(a, b) || Precedes(b, a)
  {
    BelowTotal(a.chunk.id, b.chunk.id);
  }

  lemma {:induction false} PrecedesTransitive(a: Scored, b: Scored, c: Scored)
    requires Precedes(a, b) && Precedes(b, c)
    ensures Precedes(a, c)
  {
    if a.section == b.section == c.section && a.score == b.score == c.score {
      BelowTransitive(a.chunk.id, b.chunk.id, c.chunk.id);
    }
  }

  /** Only chunks of one identifier can tie. */
  lemma {:induction false} PrecedesBoth(a: Scored, b: Scored)
    requires Precedes(a, b) && Precedes(b, a)
    ensures a.chunk.id == b.chunk.id
  {
    BelowAntisymmetric(a.chunk.id, b.chunk.id);
  }

  function Insert(x: Scored, s: seq<Scored>): (r: seq<Scored>)
    ensures multiset(r) == multiset(s) + multiset{x}
  {
    if s == [] then [x]
    else if Precedes(x, s[0]) then [x] + s
    else
      assert s == [s[0]] + s[1..];
      [s[0]] + Insert(x, s[1..])
  }

  /** The stable sort by rank. */
  function Sort(s: seq<Scored>): (r: seq<Scored>)
    ensures multiset(r) == multiset(s)
  {
    if s == [] then []
    else
      assert s == [s[0]] + s[1..];
      Insert(s[0], Sort(s[1..]))
  }

  lemma {:induction false} InsertRanks(x: Scored, s: seq<Scored>)
    requires Ranked(s)
    ensures Ranked(Insert(x, s))
  {
    if s != [] {
      if Precedes(x, s[0]) {
        forall j | 0 <= j < |s| ensures Precedes(x, s[j]) {
          if j > 0 { PrecedesTransitive(x, s[0], s[j]); }
        }
      } else {
        InsertRanks(x, s[1..]);
        PrecedesTotal(x, s[0]);
        var rest := Insert(x, s[1..]);
        forall j | 0 <= j < |rest| ensures Precedes(s[0], rest[j]) {
          assert rest[j] in multiset(rest);
          assert rest[j] in multiset(s[1..]) || rest[j] == x;
        }
      }
    }
  }

  lemma {:induction false} SortRanks(s: seq<Scored>)
    ensures Ranked(Sort(s))
  {
    if s != [] {
      SortRanks(s[1..]);
      InsertRanks(s[0], Sort(s[1..]));
    }
  }

  function Chunks(s: seq<Scored>): (r: seq<Chunk>)
    ensures |r| == |s| && forall i | 0 <= i < |r| :: r[i] == s[i].chunk
  {
    seq(|s|, i requires 0 <= i < |s| => s[i].chunk)
  }

  function Cut<T>(s: seq<T>, limit: int): seq<T> {
    if limit <= 0 then [] else if |s| <= limit then s else s[..limit]
  }

  // The search.

  /** The query names what it must name and does not leave its product. */
  predicate Answerable(lex: Lexicon, q: Query) {
    !Strings.Blank(q.text) && q.limit > 0 && q.authority.Some? && q.version.Some? && q.insurer.Some? && q.product.Some? &&
    q.at.Some? && lex.inScope(q.text, q.product.value)
  }

  function Applicable(sources: seq<Source>, q: Query): seq<Source> {
    if sources == [] then []
    else
      var last := sources[|sources| - 1];
      Applicable(sources[..|sources| - 1], q) + if SourceIsApplicable(last, q) then [last] else []
  }

  /** A retriever is given every source and keeps the approved ones. */
  function Governed(sources: seq<Source>): seq<Source> {
    if sources == [] then []
    else
      var last := sources[|sources| - 1];
      Governed(sources[..|sources| - 1]) + if last.approved then [last] else []
  }

  function QueryTerms(lex: Lexicon, q: Query): set<string>
    requires q.product.Some?
  {
    lex.terms(q.text) - lex.product(q.product.value)
  }

  /** Every chunk that matches, ranked. */
  function Ranking(store: Store, lex: Lexicon, sources: seq<Source>, q: Query): Result<seq<Scored>> {
    if !Answerable(lex, q) || Applicable(sources, q) == [] || QueryTerms(lex, q) == {} then Ok([])
    else
      match ScoresOfAll(store, lex, q, QueryTerms(lex, q), Applicable(sources, q))
      case Err(f) => Err(f)
      case Ok(scored) => Ok(Sort(scored))
  }

  class Retriever {
    const lex: Lexicon
    const store: Store
    var sources: seq<Source>

    constructor (store: Store, given: seq<Source>)
      ensures lex == LEXICON && this.store == store && sources == Governed(given)
    {
      this.lex, this.store := LEXICON, store;
      var governed := [];
      for i := 0 to |given|
        invariant governed == Governed(given[..i])
      {
        assert given[..i + 1][..i] == given[..i];
        if given[i].approved {
          governed := governed + [given[i]];
        }
      }
      assert given[..|given|] == given;
      sources := governed;
    }

    method Search(q: Query) returns (r: Result<seq<Chunk>>)
      ensures r == match Ranking(store, lex, sources, q)
        case Err(f) => Err(f)
        case Ok(ranking) => Ok(Chunks(Cut(ranking, q.limit)))
    {
      if Strings.Blank(q.text) || q.limit <= 0 || q.authority.None? || q.version.None? || q.insurer.None? || q.product.None? ||
        q.at.None?
      {
        return Ok([]);
      }
      if !lex.inScope(q.text, q.product.value) {
        return Ok([]);
      }
      var applicable := [];
      for i := 0 to |sources|
        invariant applicable == Applicable(sources[..i], q)
      {
        assert sources[..i + 1][..i] == sources[..i];
        if SourceIsApplicable(sources[i], q) {
          applicable := applicable + [sources[i]];
        }
      }
      assert sources[..|sources|] == sources;
      if applicable == [] {
        return Ok([]);
      }
      var terms := lex.terms(q.text) - lex.product(q.product.value);
      if terms == {} {
        return Ok([]);
      }
      var scored := [];
      for i := 0 to |applicable|
        invariant ScoresOfAll(store, lex, q, terms, applicable[..i]) == Ok(scored)
      {
        ScoresOfAllNext(store, lex, q, terms, applicable, i);
        var chunks := Validated(store, applicable[i]);
        if chunks.Err? {
          ScoresOfAllFails(store, lex, q, terms, applicable, i + 1);
          return Err(chunks.fault);
        }
        var more := ScoreChunks(q, terms, chunks.value);
        scored := scored + more;
      }
      assert applicable[..|applicable|] == applicable;
      scored := Sort(scored);
      return Ok(Chunks(Cut(scored, q.limit)));
    }

    method ScoreChunks(q: Query, terms: set<string>, chunks: seq<Chunk>) returns (scored: seq<Scored>)
      ensures scored == Scores(lex, q, terms, chunks)
    {
      scored := [];
      for i := 0 to |chunks|
        invariant scored == Scores(lex, q, terms, chunks[..i])
      {
        assert chunks[..i + 1][..i] == chunks[..i];
        if !ChunkIsApplicable(chunks[i], q) {
          continue;
        }
        var section := |terms * lex.terms(chunks[i].section)|;
        var score := 4 * section + |terms * lex.terms(chunks[i].text)|;
        if score > 0 {
          scored := scored + [Scored(score, section, chunks[i])];
        }
      }
      assert chunks[..|chunks|] == chunks;
    }
  }

  lemma {:induction false} ScoresOfAllNext(
    store: Store, lex: Lexicon, q: Query, terms: set<string>, sources: seq<Source>, i: nat)
    requires i < |sources|
    ensures
      var before, after := ScoresOfAll(store, lex, q, terms, sources[..i]), ScoresOfAll(store, lex, q, terms, sources[..i + 1]);
      if before.Err? then after == before
      else if Validated(store, sources[i]).Err? then after == Err(Validated(store, sources[i]).fault)
      else after == Ok(before.value + Scores(lex, q, terms, Validated(store, sources[i]).value))
  {
    assert sources[..i + 1][..i] == sources[..i];
  }

  lemma {:induction false} ScoresOfAllFails(
    store: Store, lex: Lexicon, q: Query, terms: set<string>, sources: seq<Source>, i: nat)
    requires i <= |sources| && ScoresOfAll(store, lex, q, terms, sources[..i]).Err?
    ensures ScoresOfAll(store, lex, q, terms, sources) == ScoresOfAll(store, lex, q, terms, sources[..i])
    decreases |sources| - i
  {
    if i < |sources| {
      ScoresOfAllNext(store, lex, q, terms, sources, i);
      ScoresOfAllFails(store, lex, q, terms, sources, i + 1);
    } else {
      assert sources[..i] == sources;
    }
  }
}
