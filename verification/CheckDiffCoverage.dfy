/** How much of what a pull request adds to the backend its tests execute. */
module CheckDiffCoverage {
  import opened Json
  import opened Text
  import opened DiffPieces
  import opened DiffText

  type Changed = map<string, set<nat>>

  /** Where the reader of a diff stands: the new file, the next new line, and what it has gathered. */
  datatype Scan = Scan(path: Option<string>, line: Option<nat>, changed: Changed)

  function LinesOf(changed: Changed, path: string): set<nat> {
    if path in changed then changed[path] else {}
  }

  function Gather(changed: Changed, path: string, lines: set<nat>): Changed {
    if lines == {} then changed else changed[path := LinesOf(changed, path) + lines]
  }

  predicate NamesFile(raw: string) {
    StartsWith(raw, "+++ b/")
  }

  predicate OpensHunk(raw: string) {
    StartsWith(raw, "@@ ")
  }

  predicate Adds(raw: string) {
    StartsWith(raw, "+") && !StartsWith(raw, "+++")
  }

  predicate Removes(raw: string) {
    StartsWith(raw, "-") && !StartsWith(raw, "---")
  }

  function Target(path: string): Option<string> {
    var name := Replace(path, '\\', '/');
    if Backend(name) then Some(name) else None
  }

  function ReadStart(range: string): Option<nat> {
    var start := Before(range, ',');
    var length := if |start| < |range| then range[|start| + 1..] else "1";
    if length == "0" || !Digits(start) then None else Some(Read(start))
  }

  /** The new line a hunk header announces; None for a header it cannot read and for a pure removal. */
  function NewLine(raw: string): Option<nat> {
    if '+' !in raw then None
    else
      ReadStart(Before(raw[|Before(raw, '+')| + 1..], ' '))
  }

  function Step(s: Scan, raw: string): Scan {
    if NamesFile(raw) then Scan(Target(raw[6..]), None, s.changed)
    else if OpensHunk(raw) then s.(line := NewLine(raw))
    else if s.path.None? || s.line.None? then s
    else if Adds(raw) then Scan(s.path, Some(s.line.value + 1), Gather(s.changed, s.path.value, {s.line.value}))
    else if Removes(raw) then s
    else s.(line := Some(s.line.value + 1))
  }

  function Run(s: Scan, lines: seq<string>): Scan {
    if lines == [] then s else Step(Run(s, lines[..|lines| - 1]), lines[|lines| - 1])
  }

  const START := Scan(None, None, map[])

  method ChangedBackendLines(text: string) returns (changed: Changed)
    ensures changed == Run(START, SplitLines(text)).changed
    ensures forall d :: Readable(d) && text == Joined(DiffLines(d)) ==> changed == Gathered(d, Seen)
  {
    var path: Option<string>, line: Option<nat> := None, None;
    changed := map[];
    var lines := SplitLines(text);
    for i := 0 to |lines|
      invariant Scan(path, line, changed) == Run(START, lines[..i])
    {
      var raw := lines[i];
      RunNext(START, lines, i);
      if StartsWith(raw, "+++ b/") {
        var name := Replace(raw[6..], '\\', '/');
        path := if Backend(name) then Some(name) else None;
        line := None;
        continue;
      }
      if StartsWith(raw, "@@ ") {
        line := NewLine(raw);
        continue;
      }
      if path == None || line == None {
        continue;
      }
      if StartsWith(raw, "+") && !StartsWith(raw, "+++") {
        changed := changed[path.value := LinesOf(changed, path.value) + {line.value}];
        line := Some(line.value + 1);
      } else if StartsWith(raw, "-") && !StartsWith(raw, "---") {
        continue;
      } else {
        line := Some(line.value + 1);
      }
    }
    assert lines[..|lines|] == lines;
    ReadableIsSeen(text);
  }

  lemma {:induction false} ReadableIsSeen(text: string)
    ensures forall d :: Readable(d) && text == Joined(DiffLines(d)) ==> Run(START, SplitLines(text)).changed == Gathered(d, Seen)
  {
    forall d | Readable(d) && text == Joined(DiffLines(d)) ensures Run(START, SplitLines(text)).changed == Gathered(d, Seen) {
      RenderedIsSeen(d);
    }
  }

  lemma {:induction false} RenderedIsSeen(d: seq<FileDiff>)
    requires Readable(d)
    ensures Run(START, SplitLines(Joined(DiffLines(d)))).changed == Gathered(d, Seen)
  {
    SplitJoinedPieces(DiffLines(d));
    DiffIsSeen(d);
  }

  lemma {:induction false} RunNext(s: Scan, lines: seq<string>, i: nat)
    requires i < |lines|
    ensures Run(s, lines[..i + 1]) == Step(Run(s, lines[..i]), lines[i])
  {
    assert lines[..i + 1][..i] == lines[..i];
  }

  // What the reader makes of a rendered diff.

  /** The lines not taken for removed ones: each moves the reader one line on. */
  function Counted(raws: seq<string>): seq<string> {
    if raws == [] then []
    else
      var n := |raws| - 1;
      Counted(raws[..n]) + if Removes(raws[n]) then [] else [raws[n]]
  }

  /** The numbers, from `start`, of the lines that look added. */
  function Spots(start: nat, raws: seq<string>): set<nat> {
    if raws == [] then {}
    else
      var n := |raws| - 1;
      Spots(start, raws[..n]) + if Adds(raws[n]) then {start + n} else {}
  }

  /** The lines the reader gathers from a hunk. */
  function Seen(h: Hunk): set<nat> {
    if h.added == [] then {} else Spots(h.newStart, Counted(Stream(h)))
  }

  /** The lines of the new file that the hunk adds. */
  function Added(h: Hunk): set<nat> {
    Numbers(h.newStart, |h.added|)
  }

  function Numbers(start: nat, length: nat): (r: set<nat>)
    ensures forall line :: line in r <==> start <= line < start + length
  {
    if length == 0 then {} else Numbers(start, length - 1) + {start + length - 1}
  }

  function FromHunks(changed: Changed, path: string, hs: seq<Hunk>, lines: Hunk -> set<nat>): Changed {
    if hs == [] then changed
    else Gather(FromHunks(changed, path, hs[..|hs| - 1], lines), path, lines(hs[|hs| - 1]))
  }

  function TargetOf(f: FileDiff): Option<string> {
    if f.after.Some? then Target(f.after.value) else None
  }

  function FromFile(changed: Changed, f: FileDiff, lines: Hunk -> set<nat>): Changed {
    if TargetOf(f).Some? then FromHunks(changed, TargetOf(f).value, f.hunks, lines) else changed
  }

  /** The lines each hunk of a backend file contributes, by file. */
  function Gathered(d: seq<FileDiff>, lines: Hunk -> set<nat>): Changed {
    if d == [] then map[] else FromFile(Gathered(d[..|d| - 1], lines), d[|d| - 1], lines)
  }

  predicate Quiet(raw: string) {
    !NamesFile(raw) && !OpensHunk(raw)
  }

  /** Text that itself names a new file or opens a hunk, as a line or after a line break, is beyond this reader. */
  predicate Plain(h: Hunk) {
    forall raw | raw in Stream(h) :: Quiet(raw)
  }

  predicate ReadableFile(f: FileDiff) {
    FromGit(f) && Unbroken(f.preamble) && Unbroken([BeforeLine(f), AfterLine(f)]) && forall h | h in f.hunks :: Plain(h)
  }

  /** Bodies may hold line breaks; the names of files hold none. */
  predicate Readable(d: seq<FileDiff>) {
    forall f | f in d :: ReadableFile(f)
  }

  lemma {:induction false} RunAppend(s: Scan, a: seq<string>, b: seq<string>)
    ensures Run(s, a + b) == Run(Run(s, a), b)
  {
    if b == [] {
      assert a + b == a;
    } else {
      var n := |b| - 1;
      assert (a + b)[..|a| + n] == a + b[..n];
      assert (a + b)[|a| + n] == b[n];
      RunAppend(s, a, b[..n]);
    }
  }

  lemma {:induction false} GatherTwice(changed: Changed, path: string, a: set<nat>, b: set<nat>)
    ensures Gather(Gather(changed, path, a), path, b) == Gather(changed, path, a + b)
  {
    if a == {} {
      assert a + b == b;
    } else if b == {} {
      assert a + b == a;
    } else {
      assert LinesOf(changed, path) + a + b == LinesOf(changed, path) + (a + b);
    }
  }

  /** Lines that gather nothing and leave the file alone. */
  predicate Idle(raw: string) {
    !NamesFile(raw) && !Adds(raw)
  }

  lemma {:induction false} IdleRun(s: Scan, lines: seq<string>)
    requires forall raw | raw in lines :: Idle(raw)
    ensures Run(s, lines).path == s.path && Run(s, lines).changed == s.changed
  {
    if lines != [] {
      var n := |lines| - 1;
      assert lines[n] in lines;
      IdleRun(s, lines[..n]);
    }
  }

  /** Outside the backend, and past a header without new lines, a hunk goes by. */
  lemma {:induction false} StillRun(s: Scan, raws: seq<string>)
    requires (s.path.None? || s.line.None?) && forall raw | raw in raws :: Quiet(raw)
    ensures Run(s, raws) == s
  {
    if raws != [] {
      var n := |raws| - 1;
      assert raws[n] in raws;
      StillRun(s, raws[..n]);
    }
  }

  /** Where lines that are part of a hunk take the reader. */
  function Through(s: Scan, raws: seq<string>): Scan
    requires s.path.Some? && s.line.Some?
  {
    Scan(s.path, Some(s.line.value + |raws|), Gather(s.changed, s.path.value, Spots(s.line.value, raws)))
  }

  lemma {:induction false} CountedRun(s: Scan, raws: seq<string>)
    requires s.path.Some? && s.line.Some? && forall raw | raw in raws :: Quiet(raw)
    ensures Run(s, raws) == Through(s, Counted(raws))
  {
    if raws != [] {
      var n := |raws| - 1;
      assert raws[n] in raws;
      CountedRun(s, raws[..n]);
      if Removes(raws[n]) {
        RemovedStep(Run(s, raws[..n]), raws[n]);
        assert Counted(raws[..n]) + [] == Counted(raws[..n]);
      } else {
        ThroughOne(s, Counted(raws[..n]), raws[n]);
      }
    }
  }

  lemma {:induction false} RemovedStep(s: Scan, raw: string)
    requires Quiet(raw) && Removes(raw)
    ensures Step(s, raw) == s
  {
    assert raw[0] == '-';
  }

  lemma {:induction false} ThroughOne(s: Scan, raws: seq<string>, raw: string)
    requires s.path.Some? && s.line.Some? && Quiet(raw) && !Removes(raw)
    ensures Step(Through(s, raws), raw) == Through(s, raws + [raw])
  {
    assert (raws + [raw])[..|raws|] == raws;
    var spot := if Adds(raw) then {s.line.value + |raws|} else {};
    GatherTwice(s.changed, s.path.value, Spots(s.line.value, raws), spot);
  }

  lemma {:induction false} NewLineOf(front: string, range: string, tail: string)
    requires '+' !in front && ' ' !in range && tail != "" && tail[0] == ' '
    ensures NewLine(front + ("+" + (range + tail))) == ReadStart(range)
  {
    BeforeOf(front, '+', "+" + (range + tail));
    assert (front + ("+" + (range + tail)))[|front| + 1..] == range + tail;
    BeforeOf(range, ' ', tail);
  }

  lemma {:induction false} ReadStartOf(r: Range)
    ensures ReadStart(ShowRange(r)) == if r.length == 0 then None else Some(r.start)
  {
    ShowRangeParts(r);
    ReadShow(r.start);
    ShowsZero(r.length);
    if r.length != 1 {
      LengthOf(r);
    }
  }

  lemma {:induction false} LengthOf(r: Range)
    requires r.length != 1
    ensures |Show(r.start)| < |ShowRange(r)| && ShowRange(r)[|Show(r.start)| + 1..] == Show(r.length)
  {
    assert ShowRange(r) == Show(r.start) + ("," + Show(r.length));
  }

  lemma {:induction false} HeaderNewLine(h: Hunk)
    ensures OpensHunk(HunkHeader(h))
    ensures NewLine(HunkHeader(h)) == if h.added == [] then None else Some(h.newStart)
  {
    ShowRangeParts(OldRange(h));
    ShowRangeParts(NewRange(h));
    FrontHasNoPlus(h);
    NewLineOf(HeaderFront(h), ShowRange(NewRange(h)), HeaderTail(h));
    ReadStartOf(NewRange(h));
    HeaderOpens(h);
  }

  lemma {:induction false} FrontHasNoPlus(h: Hunk)
    ensures '+' !in HeaderFront(h)
  {
  }

  lemma {:induction false} HeaderOpens(h: Hunk)
    ensures OpensHunk(HunkHeader(h)) && HunkHeader(h)[0] == '@'
  {
  }

  /** The first line a hunk is read as still announces its new line. */
  lemma {:induction false} HeaderStep(s: Scan, h: Hunk)
    ensures Step(s, UpToBreak(HunkHeader(h))) == s.(line := if h.added == [] then None else Some(h.newStart))
  {
    var cut := h.(section := UpToBreak(h.section));
    HeaderFirst(h);
    HeaderNewLine(cut);
    HeaderOpens(cut);
  }

  lemma {:induction false} HunkRun(s: Scan, h: Hunk)
    requires Plain(h)
    ensures Run(s, PiecesOf(HunkLines(h))).path == s.path
    ensures Run(s, PiecesOf(HunkLines(h))).changed ==
      if s.path.Some? then Gather(s.changed, s.path.value, Seen(h)) else s.changed
  {
    var first := [UpToBreak(HunkHeader(h))];
    HunkStream(h);
    RunAppend(s, first, Stream(h));
    OneLine(s, first[0]);
    HeaderStep(s, h);
    var inside := Step(s, first[0]);
    if inside.path.None? || inside.line.None? {
      StillRun(inside, Stream(h));
    } else {
      CountedRun(inside, Stream(h));
    }
  }

  lemma {:induction false} OneLine(s: Scan, raw: string)
    ensures Run(s, [raw]) == Step(s, raw)
  {
  }

  lemma {:induction false} HunksRun(s: Scan, hs: seq<Hunk>)
    requires forall h | h in hs :: Plain(h)
    ensures Run(s, PiecesOf(HunksLines(hs))).path == s.path
    ensures Run(s, PiecesOf(HunksLines(hs))).changed ==
      if s.path.Some? then FromHunks(s.changed, s.path.value, hs, Seen) else s.changed
  {
    if hs != [] {
      var n := |hs| - 1;
      HunksRun(s, hs[..n]);
      assert hs[n] in hs;
      PiecesAppend(HunksLines(hs[..n]), HunkLines(hs[n]));
      RunAppend(s, PiecesOf(HunksLines(hs[..n])), PiecesOf(HunkLines(hs[n])));
      HunkRun(Run(s, PiecesOf(HunksLines(hs[..n]))), hs[n]);
    }
  }

  lemma {:induction false} NothingAdded(changed: Changed, path: string, hs: seq<Hunk>)
    requires forall h | h in hs :: h.added == []
    ensures FromHunks(changed, path, hs, Seen) == changed
  {
    if hs != [] {
      assert hs[|hs| - 1] in hs;
      NothingAdded(changed, path, hs[..|hs| - 1]);
    }
  }

  lemma {:induction false} PreambleRun(s: Scan, f: FileDiff)
    requires ReadableFile(f)
    ensures Run(s, f.preamble).path == s.path && Run(s, f.preamble).changed == s.changed
  {
    forall raw | raw in f.preamble ensures Idle(raw) {
      assert Preamble(raw);
    }
    IdleRun(s, f.preamble);
  }

  lemma {:induction false} HeadersRun(s: Scan, f: FileDiff)
    ensures Run(s, [BeforeLine(f), AfterLine(f)]).changed == s.changed
    ensures Run(s, [BeforeLine(f), AfterLine(f)]).path == if f.after.Some? then Target(f.after.value) else s.path
  {
    var before := BeforeLine(f);
    assert [before, AfterLine(f)] == [before] + [AfterLine(f)];
    RunAppend(s, [before], [AfterLine(f)]);
    OneLine(s, before);
    OneLine(Run(s, [before]), AfterLine(f));
    assert before[0] == '-';
    if f.after.Some? {
      assert AfterLine(f)[6..] == f.after.value;
    } else {
      assert AfterLine(f)[4] == '/';
    }
  }

  lemma {:induction false} FileRun(s: Scan, f: FileDiff)
    requires ReadableFile(f)
    ensures Run(s, PiecesOf(FileLines(f))).changed == FromFile(s.changed, f, Seen)
  {
    FilePieces(f);
    PreambleRun(s, f);
    if f.hunks != [] {
      var headers, body := [BeforeLine(f), AfterLine(f)], PiecesOf(HunksLines(f.hunks));
      RunAppend(s, f.preamble, headers + body);
      RunAppend(Run(s, f.preamble), headers, body);
      HeadersRun(Run(s, f.preamble), f);
      var inside := Run(Run(s, f.preamble), headers);
      HunksRun(inside, f.hunks);
      if f.after.None? && inside.path.Some? {
        NothingAdded(inside.changed, inside.path.value, f.hunks);
      }
    }
  }

  lemma {:induction false} DiffIsSeen(d: seq<FileDiff>)
    requires Readable(d)
    ensures Run(START, PiecesOf(DiffLines(d))).changed == Gathered(d, Seen)
  {
    if d != [] {
      var n := |d| - 1;
      assert d[n] in d;
      DiffIsSeen(d[..n]);
      PiecesAppend(DiffLines(d[..n]), FileLines(d[n]));
      RunAppend(START, PiecesOf(DiffLines(d[..n])), PiecesOf(FileLines(d[n])));
      FileRun(Run(START, PiecesOf(DiffLines(d[..n]))), d[n]);
    }
  }

  // When the reader recovers the added lines.

  /** Of the lines not taken for removed ones, the first `|added|` and no others look added. */
  predicate Faithful(h: Hunk) {
    h.added == [] || FirstAdd(Counted(Stream(h)), |h.added|)
  }

  predicate FirstAdd(raws: seq<string>, n: nat) {
    n <= |raws| && forall i | 0 <= i < |raws| :: Adds(raws[i]) <==> i < n
  }

  predicate AllFaithful(d: seq<FileDiff>) {
    forall f, h | f in d && h in f.hunks && TargetOf(f).Some? :: Faithful(h)
  }

  /** Hunks of a file come in order, and a file of the new tree comes once. */
  predicate InOrder(d: seq<FileDiff>) {
    (forall f, i, j | f in d && 0 <= i < j < |f.hunks| :: f.hunks[i].newStart + |f.hunks[i].added| <= f.hunks[j].newStart) &&
    (forall i, j | 0 <= i < j < |d| && TargetOf(d[i]).Some? :: TargetOf(d[i]) != TargetOf(d[j]))
  }

  /** A hunk that holds line breaks is read to its end before the next hunk of the file begins. */
  predicate Apart(d: seq<FileDiff>) {
    forall f, i, j | f in d && 0 <= i < j < |f.hunks| && !BreakFree(f.hunks[i]) ::
      f.hunks[i].newStart + |Counted(Stream(f.hunks[i]))| <= f.hunks[j].newStart
  }

  lemma {:induction false} SpotsAt(start: nat, raws: seq<string>, line: nat)
    ensures line in Spots(start, raws) <==> start <= line < start + |raws| && Adds(raws[line - start])
  {
    if raws != [] {
      SpotsAt(start, raws[..|raws| - 1], line);
    }
  }

  lemma {:induction false} SeenAt(h: Hunk, line: nat)
    ensures line in Seen(h) ==> h.newStart <= line < h.newStart + |Counted(Stream(h))|
  {
    SpotsAt(h.newStart, Counted(Stream(h)), line);
  }

  lemma {:induction false} SpotsExactly(start: nat, raws: seq<string>, n: nat)
    requires n > 0
    ensures Spots(start, raws) == Numbers(start, n) <==> FirstAdd(raws, n)
  {
    forall line: nat ensures line in Spots(start, raws) <==> start <= line < start + |raws| && Adds(raws[line - start]) {
      SpotsAt(start, raws, line);
    }
    if Spots(start, raws) == Numbers(start, n) {
      assert start + n - 1 in Numbers(start, n);
      forall i | 0 <= i < |raws| ensures Adds(raws[i]) <==> i < n {
        assert start + i in Spots(start, raws) <==> start + i in Numbers(start, n);
      }
    }
  }

  /** The lines of one hunk are recovered exactly when it is faithful, whatever breaks its text holds. */
  lemma {:induction false} SeenExactlyWhenFaithful(h: Hunk)
    ensures Seen(h) == Added(h) <==> Faithful(h)
  {
    if h.added != [] {
      SpotsExactly(h.newStart, Counted(Stream(h)), |h.added|);
    }
  }

  /** Hunk `k` of file `i` of the diff belongs to `path` and contributes the line. */
  ghost predicate From(d: seq<FileDiff>, lines: Hunk -> set<nat>, path: string, line: nat, i: nat, k: nat) {
    i < |d| && k < |d[i].hunks| && TargetOf(d[i]) == Some(path) && line in lines(d[i].hunks[k])
  }

  lemma {:induction false} FromHunksHas(
    changed: Changed, path: string, hs: seq<Hunk>, lines: Hunk -> set<nat>, p: string, line: nat)
    ensures line in LinesOf(FromHunks(changed, path, hs, lines), p) <==>
      line in LinesOf(changed, p) || (p == path && exists k | 0 <= k < |hs| :: line in lines(hs[k]))
  {
    if hs != [] {
      FromHunksHas(changed, path, hs[..|hs| - 1], lines, p, line);
    }
  }

  lemma {:induction false} GatheredHas(d: seq<FileDiff>, lines: Hunk -> set<nat>, path: string, line: nat)
    ensures line in LinesOf(Gathered(d, lines), path) <==> exists i, k :: From(d, lines, path, line, i, k)
  {
    if d != [] {
      var n := |d| - 1;
      var most := d[..n];
      GatheredHas(most, lines, path, line);
      if TargetOf(d[n]).Some? {
        FromHunksHas(Gathered(most, lines), TargetOf(d[n]).value, d[n].hunks, lines, path, line);
      }
      if i: nat, k: nat :| From(most, lines, path, line, i, k) {
        assert From(d, lines, path, line, i, k);
      }
      if i: nat, k: nat :| From(d, lines, path, line, i, k) {
        if i < n {
          assert From(most, lines, path, line, i, k);
        }
      }
      if k :| 0 <= k < |d[n].hunks| && TargetOf(d[n]) == Some(path) && line in lines(d[n].hunks[k]) {
        assert From(d, lines, path, line, n, k);
      }
    }
  }

  lemma {:induction false} FaithfulHunks(changed: Changed, path: string, hs: seq<Hunk>)
    requires forall h | h in hs :: Faithful(h)
    ensures FromHunks(changed, path, hs, Seen) == FromHunks(changed, path, hs, Added)
  {
    if hs != [] {
      var n := |hs| - 1;
      assert hs[n] in hs;
      SeenExactlyWhenFaithful(hs[n]);
      FaithfulHunks(changed, path, hs[..n]);
    }
  }

  lemma {:induction false} FaithfulDiffs(d: seq<FileDiff>)
    requires AllFaithful(d)
    ensures Gathered(d, Seen) == Gathered(d, Added)
  {
    if d != [] {
      var n := |d| - 1;
      assert d[n] in d;
      FaithfulDiffs(d[..n]);
      if TargetOf(d[n]).Some? {
        FaithfulHunks(Gathered(d[..n], Added), TargetOf(d[n]).value, d[n].hunks);
      }
    }
  }

  /** A missed line of a hunk is gathered from no other hunk. */
  lemma {:induction false} MissedIsMissed(d: seq<FileDiff>, seen: Hunk -> set<nat>, i: nat, k: nat, line: nat)
    requires InOrder(d) && i < |d| && k < |d[i].hunks| && TargetOf(d[i]).Some?
    requires line in Added(d[i].hunks[k]) && line !in seen(d[i].hunks[k])
    requires forall m | 0 <= m < k :: seen(d[i].hunks[m]) == Added(d[i].hunks[m])
    requires forall m, other | 0 <= m < |d[i].hunks| && other in seen(d[i].hunks[m]) :: d[i].hunks[m].newStart <= other
    ensures Gathered(d, seen) != Gathered(d, Added)
  {
    assert d[i] in d;
    if Gathered(d, seen) == Gathered(d, Added) {
      var m := AlsoFrom(d, Added, seen, line, i, k);
      assert false;
    }
  }

  /** A line past a hunk and ahead of the next is an added line of no hunk. */
  lemma {:induction false} ExtraIsExtra(d: seq<FileDiff>, seen: Hunk -> set<nat>, i: nat, k: nat, line: nat)
    requires InOrder(d) && i < |d| && k < |d[i].hunks| && TargetOf(d[i]).Some?
    requires line in seen(d[i].hunks[k]) && line !in Added(d[i].hunks[k]) && d[i].hunks[k].newStart <= line
    requires forall m | k < m < |d[i].hunks| :: line < d[i].hunks[m].newStart
    ensures Gathered(d, seen) != Gathered(d, Added)
  {
    assert d[i] in d;
    if Gathered(d, seen) == Gathered(d, Added) {
      var m := AlsoFrom(d, seen, Added, line, i, k);
      assert false;
    }
  }

  lemma {:induction false} RecoveredIsFaithful(d: seq<FileDiff>, i: nat, k: nat)
    requires InOrder(d) && Apart(d) && Gathered(d, Seen) == Gathered(d, Added)
    requires i < |d| && k < |d[i].hunks| && TargetOf(d[i]).Some?
    ensures Faithful(d[i].hunks[k])
    decreases k
  {
    var hs := d[i].hunks;
    forall m | 0 <= m < k ensures Seen(hs[m]) == Added(hs[m]) {
      RecoveredIsFaithful(d, i, m);
      SeenExactlyWhenFaithful(hs[m]);
    }
    if !Faithful(hs[k]) {
      var line := Differs(hs[k]);
      SeenAt(hs[k], line);
      if line in Added(hs[k]) {
        forall m, other | 0 <= m < |hs| && other in Seen(hs[m]) ensures hs[m].newStart <= other {
          SeenAt(hs[m], other);
        }
        MissedIsMissed(d, Seen, i, k, line);
      } else {
        assert d[i] in d;
        ExtraIsExtra(d, Seen, i, k, line);
      }
    }
  }

  /** What a hunk contributes one way comes from some hunk of the same file the other way. */
  lemma {:induction false} AlsoFrom(
    d: seq<FileDiff>, one: Hunk -> set<nat>, other: Hunk -> set<nat>, line: nat, i: nat, k: nat) returns (m: nat)
    requires InOrder(d) && Gathered(d, one) == Gathered(d, other)
    requires i < |d| && TargetOf(d[i]).Some? && From(d, one, TargetOf(d[i]).value, line, i, k)
    ensures m < |d[i].hunks| && line in other(d[i].hunks[m])
  {
    var path := TargetOf(d[i]).value;
    GatheredHas(d, one, path, line);
    GatheredHas(d, other, path, line);
    var j: nat, n: nat :| From(d, other, path, line, j, n);
    assert j == i;
    m := n;
  }

  lemma {:induction false} DifferingLine(a: set<nat>, b: set<nat>) returns (line: nat)
    requires a != b
    ensures line in a <==> line !in b
  {
    line :| line in a <==> line !in b;
  }

  /** A line on which reader and hunk differ; a missed one when the hunk holds no line break. */
  lemma {:induction false} Differs(h: Hunk) returns (line: nat)
    requires !Faithful(h)
    ensures line in Added(h) <==> line !in Seen(h)
    ensures BreakFree(h) ==> line in Added(h)
  {
    if BreakFree(h) {
      WholeIsFaithfulExactlyWhenClear(h);
      line := MissedWhole(h);
    } else {
      SeenExactlyWhenFaithful(h);
      line := DifferingLine(Added(h), Seen(h));
    }
  }

  // Hunks without line breaks.

  /** The old side has a newline at its end and no line on either side looks like a file header. */
  predicate Clear(h: Hunk) {
    !h.endless && (forall body | body in h.removed :: !StartsWith(body, "--")) &&
    forall body | body in h.added :: !StartsWith(body, "++")
  }

  lemma {:induction false} MinusLine(body: string)
    ensures !Adds(['-'] + body)
    ensures Removes(['-'] + body) <==> !StartsWith(body, "--")
  {
    assert "---" == ['-'] + "--";
    PrefixAfter('-', "--", body);
    assert (['-'] + body)[0] == '-';
  }

  lemma {:induction false} PlusLine(body: string)
    ensures Adds(['+'] + body) <==> !StartsWith(body, "++")
  {
    assert "+++" == ['+'] + "++";
    PrefixAfter('+', "++", body);
  }

  lemma {:induction false} CountedAppend(a: seq<string>, b: seq<string>)
    ensures Counted(a + b) == Counted(a) + Counted(b)
  {
    if b == [] {
      assert a + b == a;
    } else {
      var n := |b| - 1;
      assert (a + b)[..|a| + n] == a + b[..n] && (a + b)[|a| + n] == b[n];
      CountedAppend(a, b[..n]);
    }
  }

  lemma {:induction false} CountedAll(raws: seq<string>)
    requires forall raw | raw in raws :: !Removes(raw)
    ensures Counted(raws) == raws
  {
    if raws != [] {
      var n := |raws| - 1;
      assert raws[n] in raws;
      CountedAll(raws[..n]);
    }
  }

  lemma {:induction false} CountedRemoved(bodies: seq<string>)
    ensures forall raw | raw in Counted(Marked('-', bodies)) :: !Adds(raw)
    ensures Counted(Marked('-', bodies)) == [] <==> forall body | body in bodies :: !StartsWith(body, "--")
  {
    if bodies != [] {
      var n := |bodies| - 1;
      assert Marked('-', bodies)[..n] == Marked('-', bodies[..n]);
      assert bodies == bodies[..n] + [bodies[n]];
      CountedRemoved(bodies[..n]);
      MinusLine(bodies[n]);
    }
  }

  /** What precedes the added lines of a hunk and is taken for lines of the new file. */
  function Front(h: Hunk): seq<string> {
    Counted(Marked('-', h.removed)) + Noted(h.endless)
  }

  lemma {:induction false} NotedCounted(endless: bool)
    ensures Counted(Noted(endless)) == Noted(endless) && forall raw | raw in Noted(endless) :: !Adds(raw)
  {
    if endless {
      assert MARKER[0] == '\\';
    }
  }

  lemma {:induction false} AddedCounted(bodies: seq<string>)
    ensures Counted(Marked('+', bodies)) == Marked('+', bodies)
  {
    forall raw | raw in Marked('+', bodies) ensures !Removes(raw) {
      assert raw[0] == '+';
    }
    CountedAll(Marked('+', bodies));
  }

  lemma {:induction false} WholeStream(h: Hunk)
    requires BreakFree(h)
    ensures Counted(Stream(h)) == Front(h) + (Marked('+', h.added) + Noted(h.newEndless))
  {
    StreamOfWhole(h);
    CountedAppend(Marked('-', h.removed), HunkTail(h));
    CountedAppend(Noted(h.endless), Marked('+', h.added) + Noted(h.newEndless));
    CountedAppend(Marked('+', h.added), Noted(h.newEndless));
    NotedCounted(h.endless);
    NotedCounted(h.newEndless);
    AddedCounted(h.added);
    Nested(Counted(Marked('-', h.removed)), Noted(h.endless), Marked('+', h.added) + Noted(h.newEndless));
  }

  lemma {:induction false} FrontExactly(h: Hunk)
    ensures forall raw | raw in Front(h) :: !Adds(raw)
    ensures Front(h) == [] <==> !h.endless && forall body | body in h.removed :: !StartsWith(body, "--")
  {
    CountedRemoved(h.removed);
    NotedCounted(h.endless);
  }

  lemma {:induction false} WholeClear(h: Hunk)
    requires BreakFree(h) && Clear(h)
    ensures FirstAdd(Counted(Stream(h)), |h.added|)
  {
    WholeStream(h);
    FrontExactly(h);
    NotedCounted(h.newEndless);
    var raws := Marked('+', h.added) + Noted(h.newEndless);
    assert Counted(Stream(h)) == raws;
    forall i | 0 <= i < |raws| ensures Adds(raws[i]) <==> i < |h.added| {
      if i < |h.added| {
        assert h.added[i] in h.added;
        PlusLine(h.added[i]);
      }
    }
  }

  lemma {:induction false} NotAdding(front: seq<string>, bodies: seq<string>, end: seq<string>) returns (i: nat)
    requires bodies != [] && forall raw | raw in front :: !Adds(raw)
    requires front != [] || exists body | body in bodies :: StartsWith(body, "++")
    ensures i < |bodies| && !Adds((front + (Marked('+', bodies) + end))[i])
  {
    if front != [] {
      i := 0;
    } else {
      i :| i < |bodies| && StartsWith(bodies[i], "++");
      PlusLine(bodies[i]);
    }
  }

  lemma {:induction false} MissedSpot(start: nat, front: seq<string>, bodies: seq<string>, end: seq<string>)
    returns (line: nat)
    requires bodies != [] && forall raw | raw in front :: !Adds(raw)
    requires front != [] || exists body | body in bodies :: StartsWith(body, "++")
    ensures line in Numbers(start, |bodies|) && line !in Spots(start, front + (Marked('+', bodies) + end))
  {
    var i := NotAdding(front, bodies, end);
    line := start + i;
    SpotsAt(start, front + (Marked('+', bodies) + end), line);
  }

  lemma {:induction false} MissedWhole(h: Hunk) returns (line: nat)
    requires BreakFree(h) && h.added != [] && !Clear(h)
    ensures line in Added(h) && line !in Seen(h)
  {
    WholeStream(h);
    FrontExactly(h);
    line := MissedSpot(h.newStart, Front(h), h.added, Noted(h.newEndless));
  }

  /** Without line breaks, what makes a hunk faithful can be read off its sides. */
  lemma {:induction false} WholeIsFaithfulExactlyWhenClear(h: Hunk)
    requires BreakFree(h) && h.added != []
    ensures Faithful(h) <==> Clear(h)
  {
    if Clear(h) {
      WholeClear(h);
    } else {
      var _ := MissedWhole(h);
      SeenExactlyWhenFaithful(h);
    }
  }

  /**
   The reader recovers the added lines of every backend file when every hunk is faithful, and only then if
   no hunk with line breaks runs into the next one.
   */
  lemma {:induction false} RecoversExactlyWhenFaithful(d: seq<FileDiff>)
    requires InOrder(d)
    ensures AllFaithful(d) ==> Gathered(d, Seen) == Gathered(d, Added)
    ensures Apart(d) ==> (Gathered(d, Seen) == Gathered(d, Added) <==> AllFaithful(d))
  {
    if AllFaithful(d) {
      FaithfulDiffs(d);
    }
    if Apart(d) && Gathered(d, Seen) == Gathered(d, Added) {
      forall f, h | f in d && h in f.hunks && TargetOf(f).Some? ensures Faithful(h) {
        var i :| 0 <= i < |d| && d[i] == f;
        var k :| 0 <= k < |f.hunks| && f.hunks[k] == h;
        RecoveredIsFaithful(d, i, k);
      }
    }
  }

  /** The same of the text: whatever line breaks the bodies hold, its added lines are then read right. */
  lemma {:induction false} TextRecoversExactlyWhenFaithful(d: seq<FileDiff>)
    requires Readable(d) && InOrder(d)
    ensures var changed := Run(START, SplitLines(Joined(DiffLines(d)))).changed;
      (AllFaithful(d) ==> changed == Gathered(d, Added)) && (Apart(d) ==> (changed == Gathered(d, Added) <==> AllFaithful(d)))
  {
    RenderedIsSeen(d);
    RecoversExactlyWhenFaithful(d);
  }

  /** Without line breaks, what is taken for new lines ahead of the added ones moves them all down. */
  lemma {:induction false} FrontShiftsTheLines(h: Hunk)
    requires BreakFree(h) && forall body | body in h.added :: !StartsWith(body, "++")
    ensures Seen(h) == Numbers(h.newStart + |Front(h)|, |h.added|)
  {
    WholeStream(h);
    FrontExactly(h);
    NotedCounted(h.newEndless);
    SpotsAfter(h.newStart, Front(h), h.added, Noted(h.newEndless));
  }

  lemma {:induction false} SpotsAfter(start: nat, front: seq<string>, bodies: seq<string>, end: seq<string>)
    requires forall raw | raw in front + end :: !Adds(raw)
    requires forall body | body in bodies :: !StartsWith(body, "++")
    ensures Spots(start, front + (Marked('+', bodies) + end)) == Numbers(start + |front|, |bodies|)
  {
    var raws := front + (Marked('+', bodies) + end);
    forall line: nat ensures line in Spots(start, raws) <==> start + |front| <= line < start + |front| + |bodies| {
      SpotsAt(start, raws, line);
      var i := line - start - |front|;
      if 0 <= i < |bodies| {
        assert bodies[i] in bodies;
        PlusLine(bodies[i]);
      } else if 0 <= line - start < |raws| {
        assert raws[line - start] in front + end;
      }
    }
  }

  lemma {:induction false} NumbersOfTwo(start: nat)
    ensures Numbers(start, 2) == {start, start + 1}
  {
  }

  lemma {:induction false} MarkerInFront(h: Hunk)
    requires h.endless && forall body | body in h.removed :: !StartsWith(body, "--")
    ensures Front(h) == [MARKER]
  {
    CountedRemoved(h.removed);
  }

  lemma {:induction false} MarkerHunkIsBreakFree(h: Hunk)
    requires h.removed == ["x"] && h.added == ["x", "y"] && Whole(h.section)
    ensures BreakFree(h)
  {
    assert Whole("x") && Whole("y");
  }

  /** A last line that gains a newline and a successor is counted one line too far down. */
  lemma {:induction false} MarkerShiftsTheLine(h: Hunk)
    requires h.endless && h.removed == ["x"] && h.added == ["x", "y"] && Whole(h.section)
    ensures Added(h) == {h.newStart, h.newStart + 1} && Seen(h) == {h.newStart + 1, h.newStart + 2}
  {
    MarkerHunkIsBreakFree(h);
    FrontShiftsTheLines(h);
    MarkerInFront(h);
    NumbersOfTwo(h.newStart);
    NumbersOfTwo(h.newStart + 1);
  }

  /** A form feed in an added line moves every added line after it one line down. */
  lemma {:induction false} FormFeedShiftsTheLine(h: Hunk)
    requires h.removed == [] && !h.endless && h.added == ["a\U{0C}b", "c"] && Whole(h.section)
    ensures Added(h) == {h.newStart, h.newStart + 1} && Seen(h) == {h.newStart, h.newStart + 2}
  {
    FormFeedStream(h);
    NotedCounted(h.newEndless);
    FirstAndThird(h.newStart, ["+a", "b", "+c"] + Noted(h.newEndless));
  }

  lemma {:induction false} FirstAndThird(start: nat, raws: seq<string>)
    requires |raws| > 2 && Adds(raws[0]) && !Adds(raws[1]) && Adds(raws[2])
    requires forall i | 2 < i < |raws| :: !Adds(raws[i])
    ensures Spots(start, raws) == {start, start + 2}
  {
    forall line: nat ensures line in Spots(start, raws) <==> line == start || line == start + 2 {
      SpotsAt(start, raws, line);
    }
  }

  lemma {:induction false} FormFeedStream(h: Hunk)
    requires h.removed == [] && !h.endless && h.added == ["a\U{0C}b", "c"] && Whole(h.section)
    ensures Counted(Stream(h)) == ["+a", "b", "+c"] + Noted(h.newEndless)
  {
    StreamOfBody(h);
    FormFeedBody(h);
    LastIsUnbroken(h.newEndless);
    FormFeedPieces(["+c"] + Noted(h.newEndless));
    FormFeedCounted(h.newEndless);
  }

  lemma {:induction false} LastIsUnbroken(endless: bool)
    ensures Unbroken(["+c"] + Noted(endless))
  {
    assert Whole("+c");
    NotedIsUnbroken(endless);
    UnbrokenAppend(["+c"], Noted(endless));
  }

  lemma {:induction false} FormFeedCounted(endless: bool)
    ensures Counted(["+a", "b"] + (["+c"] + Noted(endless))) == ["+a", "b", "+c"] + Noted(endless)
  {
    var raws := ["+a", "b", "+c"];
    forall raw | raw in raws ensures !Removes(raw) {
      assert raw[0] != '-';
    }
    CountedAll(raws);
    CountedAppend(raws, Noted(endless));
    NotedCounted(endless);
    Nested(["+a", "b"], ["+c"], Noted(endless));
    assert ["+a", "b"] + ["+c"] == raws;
  }

  lemma {:induction false} FormFeedBody(h: Hunk)
    requires h.removed == [] && !h.endless && h.added == ["a\U{0C}b", "c"]
    ensures HunkBody(h) == ["+a\U{0C}b"] + (["+c"] + Noted(h.newEndless))
  {
    assert ['+'] + "a\U{0C}b" == "+a\U{0C}b" && ['+'] + "c" == "+c";
    assert Marked('-', h.removed) == [];
    assert Marked('+', h.added) == ["+a\U{0C}b", "+c"];
  }

  lemma {:induction false} FormFeedLine()
    ensures Pieces("+a\U{0C}b") == ["+a", "b"]
  {
    PiecesAtBreak("+a", '\U{0C}', "b");
    assert "+a" + (['\U{0C}'] + "b") == "+a\U{0C}b";
    PiecesOfWhole("b");
  }

  lemma {:induction false} FormFeedPieces(rest: seq<string>)
    requires Unbroken(rest)
    ensures PiecesOf(["+a\U{0C}b"] + rest) == ["+a", "b"] + rest
  {
    var line := "+a\U{0C}b";
    PiecesAppend([line], rest);
    PiecesOfOne(line);
    PiecesOfUnbroken(rest);
    FormFeedLine();
  }
}
