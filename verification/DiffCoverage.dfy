/** The covered share of the executable lines that a pull request changes. */
module DiffCoverage {
  import opened Json
  import opened Text
  import opened CheckDiffCoverage

  /** A file of the coverage report; the same line may be reported both executed and missing. */
  datatype FileReport = FileReport(executed: set<nat>, missing: set<nat>)

  /** The report's entries in order; one that is not an object is None. */
  type Report = seq<(string, Option<FileReport>)>

  /** Normalised names may meet: the last entry stands. */
  function Lookup(report: Report, path: string): Option<FileReport> {
    if report == [] then None
    else
      var last := report[|report| - 1];
      if Replace(last.0, '\\', '/') == path then last.1 else Lookup(report[..|report| - 1], path)
  }

  function ReportOf(report: Report, path: string): FileReport {
    Lookup(report, Replace(path, '\\', '/')).GetOr(FileReport({}, {}))
  }

  function Executable(report: Report, changed: Changed, path: string): set<nat> {
    var r := ReportOf(report, path);
    LinesOf(changed, path) * (r.executed + r.missing)
  }

  function Covered(report: Report, changed: Changed, path: string): set<nat> {
    LinesOf(changed, path) * ReportOf(report, path).executed
  }

  function Uncovered(report: Report, changed: Changed, path: string): set<nat> {
    Executable(report, changed, path) - Covered(report, changed, path)
  }

  /** The lines of every path, told apart by path, so that their number is the sum over the paths. */
  function Spread(paths: set<string>, lines: string -> set<nat>): set<(string, nat)> {
    set path, line | path in paths && line in lines(path) :: (path, line)
  }

  function Tagged(path: string, lines: set<nat>): set<(string, nat)> {
    set line | line in lines :: (path, line)
  }

  lemma {:induction false} TaggedSize(path: string, lines: set<nat>)
    ensures |Tagged(path, lines)| == |lines|
  {
    if lines != {} {
      var line :| line in lines;
      TaggedSize(path, lines - {line});
      assert Tagged(path, lines) == Tagged(path, lines - {line}) + {(path, line)};
    }
  }

  lemma {:induction false} SpreadGrows(paths: set<string>, path: string, lines: string -> set<nat>)
    requires path !in paths
    ensures |Spread(paths + {path}, lines)| == |Spread(paths, lines)| + |lines(path)|
  {
    TaggedSize(path, lines(path));
    assert Spread(paths + {path}, lines) == Spread(paths, lines) + Tagged(path, lines(path));
    assert Spread(paths, lines) !! Tagged(path, lines(path));
  }

  ghost predicate IsLeast(least: nat, lines: set<nat>) {
    least in lines && forall line | line in lines :: least <= line
  }

  function Least(lines: set<nat>): (least: nat)
    requires lines != {}
    ensures IsLeast(least, lines)
  {
    LeastExists(lines);
    var least :| least in lines && forall line | line in lines :: least <= line;
    least
  }

  lemma {:induction false} LeastExists(lines: set<nat>)
    requires lines != {}
    ensures exists least :: IsLeast(least, lines)
  {
    var x :| x in lines;
    var rest := lines - {x};
    assert lines == rest + {x};
    if rest == {} {
      assert IsLeast(x, lines);
    } else {
      LeastExists(rest);
      var y :| IsLeast(y, rest);
      assert IsLeast(if x < y then x else y, lines);
    }
  }

  ghost predicate Increasing(r: seq<nat>) {
    forall i, j | 0 <= i < j < |r| :: r[i] < r[j]
  }

  ghost predicate Lists(r: seq<nat>, lines: set<nat>) {
    Increasing(r) && forall line :: line in r <==> line in lines
  }

  function Ascending(lines: set<nat>): (r: seq<nat>)
    ensures Lists(r, lines) && |r| == |lines|
  {
    if lines == {} then []
    else
      var least := Least(lines);
      var rest := Ascending(lines - {least});
      assert forall line | line in rest :: least < line;
      [least] + rest
  }

  lemma {:induction false} ListsOnce(a: seq<nat>, b: seq<nat>, lines: set<nat>)
    requires Lists(a, lines) && Lists(b, lines)
    ensures a == b
  {
    assert b != [] ==> b[0] in b;
    if a != [] {
      assert a[0] in b && b[0] in a;
      var i :| 0 <= i < |b| && b[i] == a[0];
      var j :| 0 <= j < |a| && a[j] == b[0];
      assert a[0] == b[0];
      ListsRest(a, lines);
      ListsRest(b, lines);
      ListsOnce(a[1..], b[1..], lines - {a[0]});
    } else {
      assert forall line :: line !in lines;
    }
  }

  lemma {:induction false} ListsRest(a: seq<nat>, lines: set<nat>)
    requires Lists(a, lines) && a != []
    ensures Lists(a[1..], lines - {a[0]})
  {
  }

  lemma {:induction false} ListsMore(a: seq<nat>, lines: set<nat>, line: nat)
    requires Lists(a, lines) && forall x | x in lines :: x < line
    ensures Lists(a + [line], lines + {line})
  {
    forall i, j | 0 <= i < j < |a + [line]| ensures (a + [line])[i] < (a + [line])[j] {
      if j == |a| {
        assert a[i] in a;
      }
    }
  }

  function Listing(paths: set<string>, lines: string -> set<nat>): map<string, seq<nat>> {
    map path | path in paths && lines(path) != {} :: Ascending(lines(path))
  }

  /** What has been counted and listed of the executable changed lines seen so far. */
  ghost predicate Counted(done: set<nat>, executed: set<nat>, covered: nat, missing: seq<nat>) {
    covered == |done * executed| && Lists(missing, done - executed)
  }

  lemma {:induction false} CountOne(done: set<nat>, executed: set<nat>, covered: nat, missing: seq<nat>, line: nat)
    requires Counted(done, executed, covered, missing) && forall x | x in done :: x < line
    ensures line in executed ==> Counted(done + {line}, executed, covered + 1, missing)
    ensures line !in executed ==> Counted(done + {line}, executed, covered, missing + [line])
  {
    if line in executed {
      assert (done + {line}) * executed == done * executed + {line};
      assert line !in done * executed;
      assert done + {line} - executed == done - executed;
    } else {
      assert (done + {line}) * executed == done * executed;
      assert done + {line} - executed == (done - executed) + {line};
      ListsMore(missing, done - executed, line);
    }
  }

  /** One file: its executable changed lines in order, counted and split. */
  method MeasureFile(all: set<nat>, executed: set<nat>) returns (covered: nat, executable: nat, missing: seq<nat>)
    ensures covered == |all * executed| && executable == |all|
    ensures missing == Ascending(all - executed)
  {
    var order := Ascending(all);
    covered, missing := CountLines(order, all, executed);
    executable := |order|;
    ListsOnce(missing, Ascending(all - executed), all - executed);
  }

  method CountLines(
    order: seq<nat>, ghost all: set<nat>, executed: set<nat>) returns (covered: nat, missing: seq<nat>)
    requires Lists(order, all)
    ensures Counted(all, executed, covered, missing)
  {
    covered, missing := 0, [];
    ghost var done: set<nat> := {};
    for i := 0 to |order|
      invariant forall line :: line in done <==> line in order[..i]
      invariant Counted(done, executed, covered, missing)
    {
      var line := order[i];
      assert forall x | x in order[..i] :: x < line;
      CountOne(done, executed, covered, missing, line);
      if line in executed {
        covered := covered + 1;
      } else {
        missing := missing + [line];
      }
      assert order[..i + 1] == order[..i] + [line];
      done := done + {line};
    }
    assert order[..|order|] == order;
    assert done == all;
  }

  function Hits(report: Report, changed: Changed): string -> set<nat> {
    path => Covered(report, changed, path)
  }

  function Known(report: Report, changed: Changed): string -> set<nat> {
    path => Executable(report, changed, path)
  }

  function Missed(report: Report, changed: Changed): string -> set<nat> {
    path => Uncovered(report, changed, path)
  }

  /** The totals over the files of `done`. */
  ghost predicate Totals(
    report: Report, changed: Changed, done: set<string>, covered: nat, executable: nat, missing: map<string, seq<nat>>)
  {
    covered == |Spread(done, Hits(report, changed))| && executable == |Spread(done, Known(report, changed))| &&
    missing == Listing(done, Missed(report, changed))
  }

  lemma {:induction false} ListingGrows(done: set<string>, path: string, lines: string -> set<nat>)
    requires path !in done
    ensures Listing(done + {path}, lines) ==
      if lines(path) == {} then Listing(done, lines) else Listing(done, lines)[path := Ascending(lines(path))]
  {
  }

  /** The counts are sums over the changed files, and what is not covered is listed. */
  method DiffCoverage(
    report: Report, changed: Changed) returns (covered: nat, executable: nat, missing: map<string, seq<nat>>)
    ensures covered == |Spread(changed.Keys, Hits(report, changed))|
    ensures executable == |Spread(changed.Keys, Known(report, changed))|
    ensures missing == Listing(changed.Keys, Missed(report, changed))
  {
    covered, executable, missing := 0, 0, map[];
    var todo := changed.Keys;
    ghost var done: set<string> := {};
    while todo != {}
      invariant done == changed.Keys - todo && todo <= changed.Keys
      invariant Totals(report, changed, done, covered, executable, missing)
      decreases todo
    {
      var path :| path in todo;
      SpreadGrows(done, path, Hits(report, changed));
      SpreadGrows(done, path, Known(report, changed));
      ListingGrows(done, path, Missed(report, changed));
      todo, done := todo - {path}, done + {path};
      var entry := Lookup(report, Replace(path, '\\', '/'));
      if entry.Some? {
        var c, e, m := MeasureFile(changed[path] * (entry.value.executed + entry.value.missing), entry.value.executed);
        FileParts(report, changed, path, entry.value);
        covered, executable := covered + c, executable + e;
        if m != [] {
          missing := missing[path := m];
        }
      } else {
        assert Executable(report, changed, path) == {} && Covered(report, changed, path) == {};
      }
    }
    assert done == changed.Keys;
  }

  lemma {:induction false} FileParts(report: Report, changed: Changed, path: string, r: FileReport)
    requires path in changed && Lookup(report, Replace(path, '\\', '/')) == Some(r)
    ensures
      var all := changed[path] * (r.executed + r.missing);
      Executable(report, changed, path) == all && Covered(report, changed, path) == all * r.executed &&
      Uncovered(report, changed, path) == all - r.executed
  {
  }

  /** The lines that a listing names, told apart by path. */
  function Listed(missing: map<string, seq<nat>>): set<(string, nat)> {
    Spread(missing.Keys, path => if path in missing then set line | line in missing[path] else {})
  }

  /** Every executable changed line is either covered or listed, once. */
  lemma {:induction false} CoveredPlusListed(
    report: Report, changed: Changed, covered: nat, executable: nat, missing: map<string, seq<nat>>)
    requires Totals(report, changed, changed.Keys, covered, executable, missing)
    ensures covered + |Listed(missing)| == executable
  {
    Conservation(changed.Keys, Hits(report, changed), Missed(report, changed), Known(report, changed));
    assert Listed(missing) == Spread(changed.Keys, Missed(report, changed));
  }

  lemma {:induction false} Conservation(
    paths: set<string>, hit: string -> set<nat>, missed: string -> set<nat>, known: string -> set<nat>)
    requires forall path :: hit(path) <= known(path) && missed(path) == known(path) - hit(path)
    ensures |Spread(paths, hit)| + |Spread(paths, missed)| == |Spread(paths, known)|
  {
    assert Spread(paths, known) == Spread(paths, hit) + Spread(paths, missed);
    assert Spread(paths, hit) !! Spread(paths, missed);
  }
}
