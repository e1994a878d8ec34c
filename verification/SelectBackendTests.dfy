/** Which test files a pull request runs, from the lines it changes. */
module SelectBackendTests {
  import opened Json
  import opened Text
  import opened DiffText
  import opened BackendTestMap
  import Diff = ParseHunks
  import opened ImportWalk

  const FULL_SUITE_PATHS: set<string> := {
    "backend/requirements.txt", "backend/requirements-dev.txt", "pyproject.toml",
    "scripts/backend_test_map.py", "scripts/ci_plan.py", "scripts/select_backend_tests.py",
    "tests/__init__.py", "tests/conftest.py"
  }

  type Files = set<string>
  type Imports = map<string, set<string>>

  datatype Selection = Full | Skip | Scoped(tests: set<string>)

  // Names of modules and paths.

  function LastComponent(path: string): string {
    if '/' in path then LastComponent(path[|Before(path, '/')| + 1..]) else path
  }

  predicate IsTestModule(path: string) {
    var name := LastComponent(path);
    StartsWith(name, "test_") || EndsWith(name, "_test.py")
  }

  function ModuleName(path: string): string {
    var stem := Replace(if EndsWith(path, ".py") then path[..|path| - 3] else path, '/', '.');
    if EndsWith(stem, ".__init__") then stem[..|stem| - 9] else stem
  }

  function ModulePath(files: Files, module_: string): string {
    var candidate := Replace(module_, '.', '/');
    if candidate + ".py" in files then candidate + ".py" else candidate + "/__init__.py"
  }

  // The import graph.

  predicate ImportsModule(imported: set<string>, m: string) {
    exists item | item in imported :: item == m || StartsWith(item, m + ".")
  }

  function ImportersOf(graph: Imports, m: string): set<string> {
    set name | name in graph && ImportsModule(graph[name], m)
  }

  predicate TestModule(files: Files, m: string) {
    StartsWith(ModulePath(files, m), "tests/") && IsTestModule(ModulePath(files, m))
  }

  predicate SupportModule(files: Files, m: string) {
    !TestModule(files, m) && StartsWith(m, "tests.")
  }

  function GraphOf(files: Files, graph: Imports): Graph {
    Graph(graph.Keys, m => ImportersOf(graph, m), m => TestModule(files, m), m => SupportModule(files, m),
          m => ModulePath(files, m))
  }

  lemma {:induction false} GraphIsClosed(files: Files, graph: Imports)
    ensures Closed(GraphOf(files, graph))
  {
  }

  // Selection.

  datatype Request = Request(
    changed: seq<string>,
    hunks: Diff.Hunks,
    coverage: Option<CoverageMap>,
    stale: set<string>,
    graph: Imports,
    forceFull: bool,
    files: Files)

  function Normalise(path: string): string {
    Replace(path, '\\', '/')
  }

  function Normalised(paths: seq<string>): set<string> {
    set p | p in paths :: Normalise(p)
  }

  predicate SharedInfrastructure(path: string) {
    path in FULL_SUITE_PATHS || StartsWith(path, ".circleci/")
  }

  predicate OtherPython(path: string) {
    EndsWith(path, ".py") && !StartsWith(path, "backend/")
  }

  /** A replaced range's own lines; the two lines an insertion falls between. */
  predicate Touches(r: Range, line: nat) {
    r.start <= line < r.start + if r.length > 0 then r.length else 2
  }

  function Executable(c: FileCoverage, r: Range): set<nat> {
    set line | line in c.statements && Touches(r, line)
  }

  function TestsOfLine(c: FileCoverage, line: nat): set<string> {
    if line in c.testsByLine then c.testsByLine[line] else {}
  }

  function Covering(c: FileCoverage, lines: set<nat>): set<string> {
    set line, t | line in lines && t in TestsOfLine(c, line) :: t
  }

  function RangeTests(c: FileCoverage, r: Range): set<string> {
    var executable := Executable(c, r);
    if executable == {} then {}
    else
      var covering := Covering(c, executable);
      if covering == {} then c.allTests else covering
  }

  function RangesOf(q: Request, path: string): seq<Range> {
    Diff.RangesIn(q.hunks, path)
  }

  predicate WholeFile(q: Request, path: string) {
    path in q.stale || path !in q.files || RangesOf(q, path) == []
  }

  ghost predicate BackendTest(q: Request, path: string, t: string)
    requires q.coverage.Some?
  {
    var known := q.coverage.value.files;
    var m := ModuleName(path);
    if path !in known then
      Importer(GraphOf(q.files, q.graph), m, t) ||
      exists i | i in ImportersOf(q.graph, m) :: ModulePath(q.files, i) in known && t in known[ModulePath(q.files, i)].allTests
    else if WholeFile(q, path) then t in known[path].allTests
    else exists i | 0 <= i < |RangesOf(q, path)| :: t in RangeTests(known[path], RangesOf(q, path)[i])
  }

  ghost predicate OtherTest(q: Request, path: string, t: string) {
    if StartsWith(path, "tests/") && IsTestModule(path) then t == path && path in q.files
    else Importer(GraphOf(q.files, q.graph), ModuleName(path), t)
  }

  predicate RunsAll(q: Request) {
    q.forceFull || (exists p | p in Normalised(q.changed) :: SharedInfrastructure(p)) ||
    (q.coverage.None? && exists p | p in Normalised(q.changed) :: Backend(p))
  }

  /** A test file that a scoped run of the request includes. */
  ghost predicate Chosen(q: Request, t: string) {
    t in q.files &&
    ((exists p | p in Normalised(q.changed) && OtherPython(p) :: OtherTest(q, p, t)) ||
     (q.coverage.Some? && exists p | p in Normalised(q.changed) && Backend(p) :: BackendTest(q, p, t)))
  }

  method RangesTests(c: FileCoverage, ranges: seq<Range>) returns (selected: set<string>)
    ensures forall t :: t in selected <==> exists i | 0 <= i < |ranges| :: t in RangeTests(c, ranges[i])
  {
    selected := {};
    for i := 0 to |ranges|
      invariant forall t :: t in selected <==> exists k | 0 <= k < i :: t in RangeTests(c, ranges[k])
    {
      var executable := Executable(c, ranges[i]);
      if executable == {} {
        continue;
      }
      var covering := Covering(c, executable);
      selected := selected + if covering == {} then c.allTests else covering;
    }
  }

  method TestsForBackendFile(q: Request, path: string) returns (selected: set<string>)
    requires q.coverage.Some?
    ensures forall t :: t in selected <==> BackendTest(q, path, t)
  {
    var known := q.coverage.value.files;
    if path !in known {
      var m := ModuleName(path);
      GraphIsClosed(q.files, q.graph);
      selected := TestImporters(GraphOf(q.files, q.graph), m);
      ghost var direct := selected;
      var importers := ImportersOf(q.graph, m);
      var todo := importers;
      while todo != {}
        invariant todo <= importers
        invariant forall t :: t in selected <==> t in direct || ImporterCovers(q, importers - todo, t)
        decreases todo
      {
        var importer :| importer in todo;
        ghost var done := importers - todo;
        todo := todo - {importer};
        assert importers - todo == done + {importer};
        var importerPath := ModulePath(q.files, importer);
        if importerPath in known {
          selected := selected + known[importerPath].allTests;
        }
      }
      assert importers - {} == importers;
      return;
    }
    if WholeFile(q, path) {
      return known[path].allTests;
    }
    selected := RangesTests(known[path], RangesOf(q, path));
  }

  ghost predicate ImporterCovers(q: Request, importers: set<string>, t: string)
    requires q.coverage.Some?
  {
    exists i | i in importers ::
      ModulePath(q.files, i) in q.coverage.value.files && t in q.coverage.value.files[ModulePath(q.files, i)].allTests
  }

  method SelectTests(q: Request) returns (r: Selection)
    ensures r.Full? <==> RunsAll(q)
    ensures r.Skip? <==> !RunsAll(q) && forall p | p in Normalised(q.changed) :: !EndsWith(p, ".py")
    ensures r.Scoped? ==> forall t :: t in r.tests <==> Chosen(q, t)
  {
    var paths := Normalised(q.changed);
    if q.forceFull {
      return Full;
    }
    if exists p | p in paths :: SharedInfrastructure(p) {
      return Full;
    }
    var backend := set p | p in paths && Backend(p);
    var others := set p | p in paths && OtherPython(p);
    if backend == {} && others == {} {
      assert forall p | p in paths :: EndsWith(p, ".py") ==> p in backend + others;
      return Skip;
    }
    var some :| some in backend + others;
    assert some in paths && EndsWith(some, ".py");
    if backend != {} && q.coverage.None? {
      var p :| p in backend;
      return Full;
    }
    var selected: set<string>, todo := {}, others;
    while todo != {}
      invariant todo <= others
      invariant forall t :: t in selected <==> exists p | p in others - todo :: OtherTest(q, p, t)
      decreases todo
    {
      var path :| path in todo;
      ghost var done := others - todo;
      todo := todo - {path};
      assert others - todo == done + {path};
      if StartsWith(path, "tests/") && IsTestModule(path) {
        if path in q.files {
          selected := selected + {path};
        }
        continue;
      }
      GraphIsClosed(q.files, q.graph);
      var importers := TestImporters(GraphOf(q.files, q.graph), ModuleName(path));
      selected := selected + importers;
    }
    assert others - {} == others;
    ghost var fromOthers := selected;
    if q.coverage.Some? {
      todo := backend;
      while todo != {}
        invariant todo <= backend
        invariant forall t :: t in selected <==> t in fromOthers || exists p | p in backend - todo :: BackendTest(q, p, t)
        decreases todo
      {
        var path :| path in todo;
        ghost var done := backend - todo;
        todo := todo - {path};
        assert backend - todo == done + {path};
        var tests := TestsForBackendFile(q, path);
        selected := selected + tests;
      }
      assert backend - {} == backend;
    }
    return Scoped(selected * q.files);
  }

  // What a scoped run is sure to include.

  /** Some test ran the line while the map was recorded. */
  ghost predicate Ran(c: FileCoverage, line: nat, t: string) {
    line in c.testsByLine && t in c.testsByLine[line]
  }

  lemma {:induction false} CoveringLine(c: FileCoverage, lines: set<nat>, line: nat, t: string)
    requires line in lines && Ran(c, line, t)
    ensures t in Covering(c, lines)
  {
    assert t in TestsOfLine(c, line);
  }

  ghost predicate WellCovered(c: FileCoverage) {
    forall line, t :: Ran(c, line, t) ==> t in c.allTests
  }

  lemma {:induction false} RangeTestsAreFileTests(c: FileCoverage, r: Range, t: string)
    requires WellCovered(c) && t in RangeTests(c, r)
    ensures t in c.allTests
  {
    if Covering(c, Executable(c, r)) != {} {
      var line :| line in Executable(c, r) && t in TestsOfLine(c, line);
      assert Ran(c, line, t);
    }
  }

  lemma {:induction false} CoverageIsWell(measured: seq<Measured>, statements: Statements, path: string)
    requires path in Coverage(measured, statements)
    ensures WellCovered(Coverage(measured, statements)[path])
    decreases |measured|
  {
    var last := measured[|measured| - 1];
    if last.relative == Some(path) {
      var c := CoverageOf(StatementsOf(statements, path), last.contexts);
      forall line, t | Ran(c, line, t) ensures t in c.allTests {
        assert line in last.contexts && t in TestFiles(last.contexts[line]);
      }
    } else {
      CoverageIsWell(measured[..|measured| - 1], statements, path);
    }
  }

  /** The last measurement of a repository path is the one the map keeps. */
  ghost predicate LastMeasured(measured: seq<Measured>, k: nat, path: string) {
    k < |measured| && measured[k].relative == Some(path) &&
    forall j | k < j < |measured| :: measured[j].relative != Some(path)
  }

  lemma {:induction false} CoverageOfLast(measured: seq<Measured>, statements: Statements, k: nat, path: string)
    requires LastMeasured(measured, k, path)
    ensures path in Coverage(measured, statements)
    ensures Coverage(measured, statements)[path] == CoverageOf(StatementsOf(statements, path), measured[k].contexts)
    decreases |measured|
  {
    if k < |measured| - 1 {
      CoverageOfLast(measured[..|measured| - 1], statements, k, path);
    }
  }

  /** The recorded run, the test file it names, and a changed executable line it executed. */
  ghost predicate Executed(
    measured: seq<Measured>, statements: Statements, k: nat, path: string, line: nat, context: string, t: string)
  {
    LastMeasured(measured, k, path) && line in StatementsOf(statements, path) &&
    line in measured[k].contexts && context in measured[k].contexts[line] && ContextTestFile(context) == Some(t)
  }

  /** A request made with the map the recorded full run was built into and read back from. */
  ghost predicate MadeWith(q: Request, p: Payload, commit: string, measured: seq<Measured>, statements: Statements) {
    Formed(p) && Load(p) == Some(CoverageMap(commit, Coverage(measured, statements))) && q.coverage == Load(p)
  }

  /**
   End to end: a test file that still exists, and whose recorded run executed a changed executable
   line of a changed backend file, is chosen.
   */
  lemma {:induction false} ExecutedTestsAreChosen(
    q: Request, p: Payload, commit: string, measured: seq<Measured>, statements: Statements,
    k: nat, path: string, r: Range, line: nat, context: string, t: string)
    requires MadeWith(q, p, commit, measured, statements)
    requires Executed(measured, statements, k, path, line, context, t)
    requires path in Normalised(q.changed) && Backend(path) && t in q.files
    requires r in RangesOf(q, path) && Touches(r, line)
    ensures Chosen(q, t)
  {
    CoverageOfLast(measured, statements, k, path);
    CoverageIsWell(measured, statements, path);
    assert t in TestFiles(measured[k].contexts[line]);
    RanTestIsChosen(q, path, r, line, t);
  }

  /** The same from the text of the diff, for the lines a hunk removes or replaces. */
  lemma {:induction false} DiffedTestsAreChosen(
    q: Request, d: seq<FileDiff>, p: Payload, commit: string, measured: seq<Measured>, statements: Statements,
    k: nat, i: nat, path: string, h: Hunk, line: nat, context: string, t: string)
    requires MadeWith(q, p, commit, measured, statements)
    requires Diff.Readable(d) && Diff.SourcesOnce(d) && Diff.AllFaithful(d)
    requires q.hunks == Diff.Run(Diff.START, SplitLines(Joined(DiffLines(d)))).hunks
    requires i < |d| && d[i].before == Some(path) && h in d[i].hunks && Touches(OldRange(h), line)
    requires Executed(measured, statements, k, path, line, context, t)
    requires path in Normalised(q.changed) && Backend(path) && t in q.files
    ensures Chosen(q, t)
  {
    Diff.RenderedIsKept(d);
    Diff.RecoversExactlyWhenFaithful(d);
    Diff.GatheredAt(d, Diff.Ranges, i);
    var j :| 0 <= j < |d[i].hunks| && d[i].hunks[j] == h;
    assert RangesOf(q, path)[j] == OldRange(h);
    ExecutedTestsAreChosen(q, p, commit, measured, statements, k, path, OldRange(h), line, context, t);
  }

  lemma {:induction false} RanTestIsChosen(q: Request, path: string, r: Range, line: nat, t: string)
    requires q.coverage.Some? && path in q.coverage.value.files && WellCovered(q.coverage.value.files[path])
    requires line in q.coverage.value.files[path].statements && Ran(q.coverage.value.files[path], line, t)
    requires path in Normalised(q.changed) && Backend(path) && t in q.files
    requires r in RangesOf(q, path) && Touches(r, line)
    ensures Chosen(q, t)
  {
    var c := q.coverage.value.files[path];
    CoveringLine(c, Executable(c, r), line, t);
    assert t in RangeTests(c, r);
    assert BackendTest(q, path, t);
  }

  /** Executable lines no test context reached, such as definitions, bring in every test of the file. */
  lemma {:induction false} UnreachedRangesChooseAll(q: Request, path: string, r: Range, t: string)
    requires q.coverage.Some? && path in q.coverage.value.files && path in Normalised(q.changed) && Backend(path)
    requires r in RangesOf(q, path) && Executable(q.coverage.value.files[path], r) != {}
    requires forall line, x | line in Executable(q.coverage.value.files[path], r) ::
      !Ran(q.coverage.value.files[path], line, x)
    requires t in q.coverage.value.files[path].allTests && t in q.files
    ensures Chosen(q, t)
  {
    var c := q.coverage.value.files[path];
    assert Covering(c, Executable(c, r)) == {} by {
      forall x | x in Covering(c, Executable(c, r)) ensures false {
        var line :| line in Executable(c, r) && x in TestsOfLine(c, line);
        assert Ran(c, line, x);
      }
    }
    assert t in RangeTests(c, r);
    assert BackendTest(q, path, t);
  }

  /** Distrusting more line numbers only ever adds tests. */
  lemma {:induction false} StaleOnlyAdds(q: Request, more: set<string>, t: string)
    requires q.coverage.Some? ==> forall path | path in q.coverage.value.files :: WellCovered(q.coverage.value.files[path])
    requires Chosen(q, t)
    ensures Chosen(q.(stale := q.stale + more), t)
  {
    var staler := q.(stale := q.stale + more);
    if p :| p in Normalised(q.changed) && OtherPython(p) && OtherTest(q, p, t) {
      assert OtherTest(staler, p, t);
    } else {
      var p :| p in Normalised(q.changed) && Backend(p) && BackendTest(q, p, t);
      StaleKeepsBackendTest(q, more, p, t);
    }
  }

  lemma {:induction false} StaleKeepsBackendTest(q: Request, more: set<string>, path: string, t: string)
    requires q.coverage.Some? && forall p | p in q.coverage.value.files :: WellCovered(q.coverage.value.files[p])
    requires BackendTest(q, path, t)
    ensures BackendTest(q.(stale := q.stale + more), path, t)
  {
    var staler := q.(stale := q.stale + more);
    assert RangesOf(staler, path) == RangesOf(q, path);
    if path in q.coverage.value.files && !WholeFile(q, path) && WholeFile(staler, path) {
      var i :| 0 <= i < |RangesOf(q, path)| && t in RangeTests(q.coverage.value.files[path], RangesOf(q, path)[i]);
      RangeTestsAreFileTests(q.coverage.value.files[path], RangesOf(q, path)[i], t);
    }
  }
}
