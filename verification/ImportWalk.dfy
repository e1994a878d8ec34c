/** The worklist over the reverse import graph, which may be cyclic. */
module ImportWalk {

  /** The importers of each module, and which modules are test files or test support. */
  datatype Graph = Graph(
    modules: set<string>,
    importers: string -> set<string>,
    test: string -> bool,
    support: string -> bool,
    path: string -> string)

  ghost predicate Closed(g: Graph) {
    (forall m :: g.importers(m) <= g.modules) && (forall m :: g.support(m) ==> !g.test(m))
  }

  /** A chain of importers from `path[0]`, through test-support modules only. */
  ghost predicate Chain(g: Graph, path: seq<string>) {
    path != [] &&
    (forall i | 0 <= i < |path| - 1 :: path[i + 1] in g.importers(path[i])) &&
    (forall i | 0 < i < |path| - 1 :: g.support(path[i]))
  }

  ghost predicate Reaches(g: Graph, from: string, to: string) {
    exists path :: Chain(g, path) && path[0] == from && path[|path| - 1] == to
  }

  /** The test files that import `m`, directly or through test-support modules. */
  ghost predicate Importer(g: Graph, m: string, test: string) {
    exists t :: t != m && g.test(t) && Reaches(g, m, t) && test == g.path(t)
  }

  lemma {:induction false} ChainStep(g: Graph, path: seq<string>, next: string)
    requires Chain(g, path) && next in g.importers(path[|path| - 1])
    requires |path| > 1 ==> g.support(path[|path| - 1])
    ensures Chain(g, path + [next])
  {
  }

  lemma {:induction false} Extends(g: Graph, from: string, m: string, next: string)
    requires Reaches(g, from, m) && (m == from || g.support(m))
    requires next in g.importers(m)
    ensures Reaches(g, from, next)
  {
    var path :| Chain(g, path) && path[0] == from && path[|path| - 1] == m;
    if m == from {
      assert Chain(g, [from, next]);
      assert [from, next][0] == from && [from, next][1] == next;
    } else {
      ChainStep(g, path, next);
      assert (path + [next])[|path|] == next;
    }
  }

  lemma {:induction false} SelfReaches(g: Graph, m: string)
    ensures Reaches(g, m, m)
  {
    assert Chain(g, [m]) && [m][0] == m;
  }

  predicate Expands(g: Graph, m: string, x: string) {
    x == m || g.support(x)
  }

  /**
   What the worklist has seen: only reachable modules, and the importers of every module it has
   expanded, but for those of `current` still in `todo`.
   */
  ghost predicate Explored(
    g: Graph, m: string, seen: set<string>, pending: seq<string>,
    current: string, todo: set<string>)
  {
    m in seen &&
    (forall x | x in seen :: Reaches(g, m, x)) &&
    (forall x | x in pending :: x in seen && Expands(g, m, x)) &&
    (forall x, y | x in seen && Expands(g, m, x) && x !in pending && y in g.importers(x) ::
       y in seen || (x == current && y in todo))
  }

  function TestsAmong(g: Graph, m: string, seen: set<string>): set<string> {
    set x | x in seen && x != m && g.test(x) :: g.path(x)
  }

  lemma {:induction false} SeeImporter(
    g: Graph, m: string, seen: set<string>, pending: seq<string>,
    current: string, todo: set<string>, y: string)
    requires Explored(g, m, seen, pending, current, todo + {y})
    requires current in seen && Expands(g, m, current) && y in g.importers(current) && y !in seen
    ensures Explored(g, m, seen + {y}, if g.support(y) then pending + [y] else pending, current, todo)
    ensures TestsAmong(g, m, seen + {y}) ==
            TestsAmong(g, m, seen) + if g.test(y) then {g.path(y)} else {}
  {
    Extends(g, m, current, y);
  }

  /** Nothing pending: every reachable module has been seen. */
  lemma {:induction false} ExploredSeesAll(
    g: Graph, m: string, seen: set<string>, current: string, path: seq<string>)
    requires Explored(g, m, seen, [], current, {})
    requires Chain(g, path) && path[0] == m
    ensures path[|path| - 1] in seen
    decreases |path|
  {
    if |path| > 1 {
      var front := path[..|path| - 1];
      assert forall i | 0 <= i < |front| :: front[i] == path[i];
      assert Chain(g, front);
      ExploredSeesAll(g, m, seen, current, front);
      assert Expands(g, m, front[|front| - 1]);
    }
  }

  method TestImporters(g: Graph, m: string) returns (found: set<string>)
    requires Closed(g)
    ensures forall t :: t in found <==> Importer(g, m, t)
  {
    found := {};
    var pending, seen := [m], {m};
    SelfReaches(g, m);
    ghost var current := m;
    while pending != []
      invariant Explored(g, m, seen, pending, current, {})
      invariant found == TestsAmong(g, m, seen) && seen <= {m} + g.modules
      decreases {m} + g.modules - seen, |pending|
    {
      var popped := pending[|pending| - 1];
      ghost var before, rest := seen, pending[..|pending| - 1];
      assert pending == rest + [popped];
      pending := pending[..|pending| - 1];
      Popped(g, m, seen, rest, popped, current);
      current := popped;
      found, pending, seen := VisitImporters(g, m, popped, found, pending, seen);
    }
    ImportersFound(g, m, seen, current);
  }

  /** A popped module is left with its importers to do. */
  lemma {:induction false} Popped(
    g: Graph, m: string, seen: set<string>, rest: seq<string>, popped: string, current: string)
    requires Explored(g, m, seen, rest + [popped], current, {})
    ensures Explored(g, m, seen, rest, popped, g.importers(popped)) && popped in seen && Expands(g, m, popped)
  {
    assert popped in rest + [popped];
    forall x | x in rest ensures x in seen && Expands(g, m, x) {
      assert x in rest + [popped];
    }
  }

  /** The importers of one module: those not seen before are found, pending or only seen. */
  method VisitImporters(
    g: Graph, m: string, popped: string, found0: set<string>, pending0: seq<string>, seen0: set<string>)
    returns (found: set<string>, pending: seq<string>, seen: set<string>)
    requires Closed(g) && Explored(g, m, seen0, pending0, popped, g.importers(popped))
    requires popped in seen0 && Expands(g, m, popped)
    requires found0 == TestsAmong(g, m, seen0) && seen0 <= {m} + g.modules
    ensures Explored(g, m, seen, pending, popped, {}) && found == TestsAmong(g, m, seen)
    ensures seen0 <= seen <= {m} + g.modules && (seen == seen0 ==> pending == pending0)
  {
    found, pending, seen := found0, pending0, seen0;
    var importers := g.importers(popped);
    var todo := importers;
    while todo != {}
      invariant todo <= importers && seen0 <= seen <= {m} + g.modules
      invariant Explored(g, m, seen, pending, popped, todo) && found == TestsAmong(g, m, seen)
      invariant seen == seen0 ==> pending == pending0
      decreases todo
    {
      var importer :| importer in todo;
      ghost var known := todo;
      todo := todo - {importer};
      assert known == todo + {importer};
      if importer in seen {
        continue;
      }
      SeeImporter(g, m, seen, pending, popped, todo, importer);
      seen := seen + {importer};
      if g.test(importer) {
        found := found + {g.path(importer)};
      } else if g.support(importer) {
        pending := pending + [importer];
      }
    }
  }

  lemma {:induction false} ImportersFound(g: Graph, m: string, seen: set<string>, current: string)
    requires Explored(g, m, seen, [], current, {})
    ensures forall t :: t in TestsAmong(g, m, seen) <==> Importer(g, m, t)
  {
    forall t | Importer(g, m, t) ensures t in TestsAmong(g, m, seen) {
      var x :| x != m && g.test(x) && Reaches(g, m, x) && t == g.path(x);
      var path :| Chain(g, path) && path[0] == m && path[|path| - 1] == x;
      ExploredSeesAll(g, m, seen, current, path);
    }
  }
}
