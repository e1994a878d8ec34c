/** The coverage map: test files interned by number when it is built, and named again when read. */
module BackendTestMap {
  import opened Json
  import opened Text

  const SCHEMA := 1

  /** One measured file: its repository path if it is a backend file, and the contexts of each line. */
  datatype Measured = Measured(relative: Option<string>, contexts: map<nat, seq<string>>)

  datatype Entry = Entry(statements: seq<nat>, all: seq<nat>, lines: map<string, seq<nat>>)
  datatype Payload = Payload(schema: int, commit: string, tests: seq<string>, files: map<string, Entry>)

  datatype FileCoverage = FileCoverage(
    statements: set<nat>, allTests: set<string>, testsByLine: map<nat, set<string>>)
  datatype CoverageMap = CoverageMap(commit: string, files: map<string, FileCoverage>)

  /** Everything before the first `::`. */
  function BeforeDoubleColon(s: string): string {
    if |s| < 2 then s
    else if s[0] == ':' && s[1] == ':' then ""
    else [s[0]] + BeforeDoubleColon(s[1..])
  }

  function ContextTestFile(context: string): Option<string> {
    if context == "" then None
    else
      var path := Replace(BeforeDoubleColon(Before(context, '|')), '\\', '/');
      if EndsWith(path, ".py") then Some(path) else None
  }

  // What the coverage data says, without the interning.

  function TestFiles(contexts: seq<string>): set<string> {
    set c | c in contexts && ContextTestFile(c).Some? :: ContextTestFile(c).value
  }

  function CoverageOf(statements: set<nat>, contexts: map<nat, seq<string>>): FileCoverage {
    FileCoverage(
      statements,
      set line, t | line in contexts && t in TestFiles(contexts[line]) :: t,
      map line | line in contexts && TestFiles(contexts[line]) != {} :: TestFiles(contexts[line]))
  }

  type Statements = map<string, set<nat>>

  function StatementsOf(statements: Statements, path: string): set<nat> {
    if path in statements then statements[path] else {}
  }

  /** A later measurement of the same repository path replaces an earlier one. */
  function Coverage(measured: seq<Measured>, statements: Statements): map<string, FileCoverage> {
    if measured == [] then map[]
    else
      var last := measured[|measured| - 1];
      var rest := Coverage(measured[..|measured| - 1], statements);
      if last.relative.None? then rest
      else rest[last.relative.value := CoverageOf(StatementsOf(statements, last.relative.value), last.contexts)]
  }

  // Reading a map.

  function Names(tests: seq<string>, ids: seq<nat>): set<string>
    requires forall i | i in ids :: i < |tests|
  {
    set i | i in ids :: tests[i]
  }

  /** Every index names a test file, and line keys are decimal numerals. */
  predicate EntryFormed(tests: seq<string>, e: Entry) {
    (forall i | i in e.all :: i < |tests|) &&
    forall key | key in e.lines ::
      Digits(key) && key == Show(Read(key)) && forall i | i in e.lines[key] :: i < |tests|
  }

  predicate Formed(p: Payload) {
    forall path | path in p.files :: EntryFormed(p.tests, p.files[path])
  }

  function LoadEntry(tests: seq<string>, e: Entry): FileCoverage
    requires EntryFormed(tests, e)
  {
    FileCoverage(
      (set s | s in e.statements),
      Names(tests, e.all),
      map key | key in e.lines :: Read(key) := Names(tests, e.lines[Show(Read(key))]))
  }

  function Load(p: Payload): Option<CoverageMap>
    requires Formed(p)
  {
    if p.schema != SCHEMA then None
    else Some(CoverageMap(p.commit, map path | path in p.files :: LoadEntry(p.tests, p.files[path])))
  }

  method LoadMap(p: Payload) returns (r: Option<CoverageMap>)
    requires Formed(p)
    ensures r == Load(p)
  {
    if p.schema != SCHEMA {
      return None;
    }
    var files: map<string, FileCoverage>, paths := map[], p.files.Keys;
    while paths != {}
      invariant paths <= p.files.Keys && files.Keys == p.files.Keys - paths
      invariant forall path | path in files :: files[path] == LoadEntry(p.tests, p.files[path])
      decreases paths
    {
      var path :| path in paths;
      paths := paths - {path};
      files := files[path := LoadEntry(p.tests, p.files[path])];
    }
    assert files == map path | path in p.files :: LoadEntry(p.tests, p.files[path]);
    return Some(CoverageMap(p.commit, files));
  }

  // Building a map.

  /** The interning table: every test file once, at its index. */
  predicate Interned(tests: seq<string>, index: map<string, nat>) {
    (forall t | t in index :: index[t] < |tests| && tests[index[t]] == t) &&
    (forall i | 0 <= i < |tests| :: tests[i] in index && index[tests[i]] == i)
  }

  function SortedIds(ids: set<nat>): (r: seq<nat>)
    ensures forall i :: i in r <==> i in ids
    ensures forall i, j | 0 <= i < j < |r| :: r[i] < r[j]
  {
    if ids == {} then [] else
      var least := LeastId(ids);
      var rest := SortedIds(ids - {least});
      assert forall i | 0 <= i < |rest| :: rest[i] in rest;
      [least] + rest
  }

  function LeastId(ids: set<nat>): (least: nat)
    requires ids != {}
    ensures least in ids && forall i | i in ids :: least <= i
  {
    assert exists least :: least in ids && forall i | i in ids :: least <= i by {
      var least := LeastIdExists(ids);
    }
    var least :| least in ids && forall i | i in ids :: least <= i;
    least
  }

  lemma {:induction false} LeastIdExists(ids: set<nat>) returns (least: nat)
    requires ids != {}
    ensures least in ids && forall i | i in ids :: least <= i
    decreases |ids|
  {
    var x :| x in ids;
    var rest := ids - {x};
    least := x;
    if rest != {} {
      var y := LeastIdExists(rest);
      least := if x <= y then x else y;
      forall i | i in ids ensures least <= i {
        if i != x { assert i in rest; }
      }
    } else {
      assert ids == {x} + rest;
    }
  }

  class Builder {
    var tests: seq<string>
    var index: map<string, nat>

    constructor ()
      ensures tests == [] && index == map[] && Interned(tests, index)
    {
      tests, index := [], map[];
    }

    /** The indexes of the test files among `contexts`, new ones interned in order of appearance. */
    method Intern(contexts: seq<string>) returns (ids: set<nat>)
      requires Interned(tests, index)
      modifies this
      ensures Interned(tests, index) && old(tests) <= tests
      ensures forall i | i in ids :: i < |tests|
      ensures (set i | i in ids :: tests[i]) == TestFiles(contexts)
    {
      ids := {};
      for k := 0 to |contexts|
        invariant Interned(tests, index) && old(tests) <= tests
        invariant forall i | i in ids :: i < |tests|
        invariant (set i | i in ids :: tests[i]) == TestFiles(contexts[..k])
      {
        var file := ContextTestFile(contexts[k]);
        assert contexts[..k + 1] == contexts[..k] + [contexts[k]];
        assert TestFiles(contexts[..k + 1]) ==
               TestFiles(contexts[..k]) + if file.Some? then {file.value} else {};
        if file.Some? {
          ghost var before := tests;
          if file.value !in index {
            index := index[file.value := |tests|];
            tests := tests + [file.value];
          }
          ghost var known := ids;
          ids := ids + {index[file.value]};
          assert (set i | i in known :: tests[i]) == (set i | i in known :: before[i]);
          assert (set i | i in ids :: tests[i]) == (set i | i in known :: tests[i]) + {file.value};
        }
      }
      assert contexts[..|contexts|] == contexts;
    }

    /** One measured file's entry, which reads back as the file's coverage. */
    method MeasureFile(contexts: map<nat, seq<string>>, statements: set<nat>) returns (e: Entry)
      requires Interned(tests, index)
      modifies this
      ensures Interned(tests, index) && old(tests) <= tests
      ensures EntryFormed(tests, e) && LoadEntry(tests, e) == CoverageOf(statements, contexts)
    {
      var lines: map<string, seq<nat>>, everything: set<nat> := map[], {};
      var todo := contexts.Keys;
      while todo != {}
        invariant todo <= contexts.Keys
        invariant Interned(tests, index) && old(tests) <= tests
        invariant LinesOf(Show, tests, lines, contexts, contexts.Keys - todo)
        invariant TestsOf(tests, everything, contexts, contexts.Keys - todo)
        decreases todo
      {
        var line := LeastId(todo);
        ghost var done, before, known, named := contexts.Keys - todo, tests, everything, lines;
        todo := todo - {line};
        var ids := Intern(contexts[line]);
        if ids != {} {
          lines := lines[Show(line) := SortedIds(ids)];
          everything := everything + ids;
        }
        assert contexts.Keys - todo == done + {line};
        ShowTellsApart(done, line);
        MoreLines(Show, before, tests, named, contexts, done, line, ids);
        MoreTests(before, tests, contexts, done, line, known, ids);
        assert everything == known + ids;
      }
      assert contexts.Keys - {} == contexts.Keys;
      e := Entry(SortedIds(statements), SortedIds(everything), lines);
      EntryReadsBack(tests, e, contexts, statements, everything);
    }

    method BuildMap(commit: string, measured: seq<Measured>, statements: Statements) returns (p: Payload)
      requires Interned(tests, index)
      modifies this
      ensures Formed(p) && Load(p) == Some(CoverageMap(commit, Coverage(measured, statements)))
    {
      var files: map<string, Entry> := map[];
      for k := 0 to |measured|
        invariant Interned(tests, index)
        invariant forall path | path in files :: EntryFormed(tests, files[path])
        invariant LoadAll(tests, files) == Coverage(measured[..k], statements)
      {
        CoverageOfNext(measured, statements, k);
        var relative := measured[k].relative;
        if relative.Some? {
          ghost var before, known := tests, files;
          var entry := MeasureFile(measured[k].contexts, StatementsOf(statements, relative.value));
          EntryAdded(before, tests, known, relative.value, entry);
          files := files[relative.value := entry];
        }
      }
      assert measured[..|measured|] == measured;
      p := Payload(SCHEMA, commit, tests, files);
    }
  }

  function LoadAll(tests: seq<string>, files: map<string, Entry>): map<string, FileCoverage>
    requires forall path | path in files :: EntryFormed(tests, files[path])
  {
    map path | path in files :: LoadEntry(tests, files[path])
  }

  function AllTests(contexts: map<nat, seq<string>>, lines: set<nat>): set<string>
    requires lines <= contexts.Keys
  {
    set line, t | line in lines && t in TestFiles(contexts[line]) :: t
  }

  /** The indexes name the test files of the source lines `done`. */
  ghost predicate TestsOf(tests: seq<string>, ids: set<nat>, contexts: map<nat, seq<string>>, done: set<nat>)
    requires done <= contexts.Keys
  {
    (forall i | i in ids :: i < |tests|) && (set i | i in ids :: tests[i]) == AllTests(contexts, done)
  }

  lemma {:induction false} MoreTests(
    before: seq<string>, tests: seq<string>, contexts: map<nat, seq<string>>, done: set<nat>, line: nat,
    known: set<nat>, ids: set<nat>)
    requires done <= contexts.Keys && line in contexts && before <= tests
    requires TestsOf(before, known, contexts, done)
    requires forall i | i in ids :: i < |tests|
    requires (set i | i in ids :: tests[i]) == TestFiles(contexts[line])
    ensures TestsOf(tests, known + ids, contexts, done + {line})
  {
    assert (set i | i in known :: tests[i]) == (set i | i in known :: before[i]);
    assert (set i | i in known + ids :: tests[i]) == (set i | i in known :: tests[i]) + (set i | i in ids :: tests[i]);
    assert AllTests(contexts, done + {line}) == AllTests(contexts, done) + TestFiles(contexts[line]);
  }

  lemma {:induction false} CoverageOfNext(measured: seq<Measured>, statements: Statements, k: nat)
    requires k < |measured|
    ensures var path, before := measured[k].relative, Coverage(measured[..k], statements);
      Coverage(measured[..k + 1], statements) ==
        if path.None? then before
        else before[path.value := CoverageOf(StatementsOf(statements, path.value), measured[k].contexts)]
  {
    assert measured[..k + 1][..k] == measured[..k] && measured[..k + 1][k] == measured[k];
  }

  /** The entry's lines, as gathered from the source lines `done` and keyed by `key`. */
  ghost predicate LinesOf(
    key: nat -> string, tests: seq<string>, lines: map<string, seq<nat>>, contexts: map<nat, seq<string>>,
    done: set<nat>)
    requires done <= contexts.Keys
  {
    (forall line | line in done :: key(line) in lines <==> TestFiles(contexts[line]) != {}) &&
    (forall k | k in lines :: exists line :: line in done && k == key(line)) &&
    (forall k | k in lines :: forall i | i in lines[k] :: i < |tests|) &&
    (forall line | line in done && key(line) in lines :: Names(tests, lines[key(line)]) == TestFiles(contexts[line]))
  }

  lemma {:induction false} NamesKept(before: seq<string>, tests: seq<string>, ids: seq<nat>)
    requires before <= tests && forall i | i in ids :: i < |before|
    ensures Names(tests, ids) == Names(before, ids)
  {
  }

  lemma {:induction false} ShowIsInjective(a: nat, b: nat)
    requires Show(a) == Show(b)
    ensures a == b
  {
    ReadShow(a);
    ReadShow(b);
  }

  lemma {:induction false} GrownLines(
    key: nat -> string, before: seq<string>, tests: seq<string>, lines: map<string, seq<nat>>,
    contexts: map<nat, seq<string>>, done: set<nat>)
    requires done <= contexts.Keys && before <= tests && LinesOf(key, before, lines, contexts, done)
    ensures LinesOf(key, tests, lines, contexts, done)
  {
  }

  lemma {:induction false} NewLine(
    key: nat -> string, tests: seq<string>, lines: map<string, seq<nat>>, contexts: map<nat, seq<string>>,
    done: set<nat>, line: nat, ids: seq<nat>)
    requires done <= contexts.Keys && line in contexts && forall l | l in done :: key(l) != key(line)
    requires LinesOf(key, tests, lines, contexts, done)
    requires (forall i | i in ids :: i < |tests|) && Names(tests, ids) == TestFiles(contexts[line]) != {}
    ensures LinesOf(key, tests, lines[key(line) := ids], contexts, done + {line})
  {
  }

  lemma {:induction false} SkippedLine(
    key: nat -> string, tests: seq<string>, lines: map<string, seq<nat>>, contexts: map<nat, seq<string>>,
    done: set<nat>, line: nat)
    requires done <= contexts.Keys && line in contexts && forall l | l in done :: key(l) != key(line)
    requires LinesOf(key, tests, lines, contexts, done) && TestFiles(contexts[line]) == {}
    ensures LinesOf(key, tests, lines, contexts, done + {line})
  {
  }

  lemma {:induction false} MoreLines(
    key: nat -> string, before: seq<string>, tests: seq<string>, lines: map<string, seq<nat>>,
    contexts: map<nat, seq<string>>, done: set<nat>, line: nat, ids: set<nat>)
    requires done <= contexts.Keys && line in contexts && forall l | l in done :: key(l) != key(line)
    requires before <= tests && LinesOf(key, before, lines, contexts, done)
    requires forall i | i in ids :: i < |tests|
    requires (set i | i in ids :: tests[i]) == TestFiles(contexts[line])
    ensures LinesOf(key, tests, if ids != {} then lines[key(line) := SortedIds(ids)] else lines, contexts, done + {line})
  {
    GrownLines(key, before, tests, lines, contexts, done);
    if ids != {} {
      var i :| i in ids;
      assert tests[i] in TestFiles(contexts[line]);
      assert Names(tests, SortedIds(ids)) == (set i | i in ids :: tests[i]);
      NewLine(key, tests, lines, contexts, done, line, SortedIds(ids));
    } else {
      SkippedLine(key, tests, lines, contexts, done, line);
    }
  }

  lemma {:induction false} ShowTellsApart(done: set<nat>, line: nat)
    requires line !in done
    ensures forall l | l in done :: Show(l) != Show(line)
  {
    forall l | l in done ensures Show(l) != Show(line) {
      if Show(l) == Show(line) { ShowIsInjective(l, line); }
    }
  }

  lemma {:induction false} LineKeys(tests: seq<string>, lines: map<string, seq<nat>>, contexts: map<nat, seq<string>>)
    requires LinesOf(Show, tests, lines, contexts, contexts.Keys)
    ensures forall key | key in lines ::
      Digits(key) && key == Show(Read(key)) && Read(key) in contexts && forall i | i in lines[key] :: i < |tests|
  {
    forall key | key in lines ensures Digits(key) && key == Show(Read(key)) && Read(key) in contexts {
      var line :| line in contexts && key == Show(line);
      ReadShow(line);
    }
  }

  lemma {:induction false} LineReadsBack(tests: seq<string>, e: Entry, contexts: map<nat, seq<string>>, line: nat)
    requires LinesOf(Show, tests, e.lines, contexts, contexts.Keys) && EntryFormed(tests, e)
    ensures line in LoadEntry(tests, e).testsByLine <==> line in contexts && TestFiles(contexts[line]) != {}
    ensures line in LoadEntry(tests, e).testsByLine ==> LoadEntry(tests, e).testsByLine[line] == TestFiles(contexts[line])
  {
    LineKeys(tests, e.lines, contexts);
    ReadShow(line);
    assert line in LoadEntry(tests, e).testsByLine <==> Show(line) in e.lines;
  }

  lemma {:induction false} LinesReadBack(
    tests: seq<string>, e: Entry, contexts: map<nat, seq<string>>, statements: set<nat>)
    requires LinesOf(Show, tests, e.lines, contexts, contexts.Keys) && EntryFormed(tests, e)
    ensures LoadEntry(tests, e).testsByLine == CoverageOf(statements, contexts).testsByLine
  {
    forall line { LineReadsBack(tests, e, contexts, line); }
  }

  lemma {:induction false} EntryReadsBack(
    tests: seq<string>, e: Entry, contexts: map<nat, seq<string>>, statements: set<nat>, everything: set<nat>)
    requires LinesOf(Show, tests, e.lines, contexts, contexts.Keys)
    requires TestsOf(tests, everything, contexts, contexts.Keys)
    requires e.statements == SortedIds(statements) && e.all == SortedIds(everything)
    ensures EntryFormed(tests, e) && LoadEntry(tests, e) == CoverageOf(statements, contexts)
  {
    LineKeys(tests, e.lines, contexts);
    LinesReadBack(tests, e, contexts, statements);
    assert Names(tests, e.all) == (set i | i in everything :: tests[i]);
    assert (set s | s in e.statements) == statements;
  }

  lemma {:induction false} EntriesKept(before: seq<string>, tests: seq<string>, files: map<string, Entry>)
    requires before <= tests && forall path | path in files :: EntryFormed(before, files[path])
    ensures forall path | path in files :: EntryFormed(tests, files[path])
    ensures LoadAll(tests, files) == LoadAll(before, files)
  {
    forall path | path in files
      ensures EntryFormed(tests, files[path]) && LoadEntry(tests, files[path]) == LoadEntry(before, files[path])
    {
      var e := files[path];
      NamesKept(before, tests, e.all);
      forall key | key in e.lines { NamesKept(before, tests, e.lines[key]); }
      assert LoadEntry(tests, e).testsByLine == LoadEntry(before, e).testsByLine;
    }
  }

  lemma {:induction false} EntryAdded(
    before: seq<string>, tests: seq<string>, files: map<string, Entry>, path: string, e: Entry)
    requires before <= tests && forall p | p in files :: EntryFormed(before, files[p])
    requires EntryFormed(tests, e)
    ensures var after := files[path := e]; forall p | p in after :: EntryFormed(tests, after[p])
    ensures LoadAll(tests, files[path := e]) == LoadAll(before, files)[path := LoadEntry(tests, e)]
  {
    EntriesKept(before, tests, files);
  }
}
