/** The merge-base line ranges that a diff replaces, as test selection reads them. */
module ParseHunks {
  import opened Json
  import opened Text
  import opened DiffPieces
  import opened DiffText

  type Hunks = map<string, seq<Range>>

  /** Where the reader stands: the old file, if it has one, and the ranges so far. */
  datatype Reading = Reading(current: Option<string>, hunks: Hunks)

  function RangesIn(hunks: Hunks, path: string): seq<Range> {
    if path in hunks then hunks[path] else []
  }

  function Append(hunks: Hunks, path: string, ranges: seq<Range>): Hunks {
    if ranges == [] then hunks else hunks[path := RangesIn(hunks, path) + ranges]
  }

  function DigitCount(s: string): (n: nat)
    ensures n <= |s| && (forall c | c in s[..n] :: IsDigit(c)) && (n < |s| ==> !IsDigit(s[n]))
  {
    if s == "" || !IsDigit(s[0]) then 0 else 1 + DigitCount(s[1..])
  }

  /** A number at the front and what follows it. */
  function ReadNumber(s: string): Option<(nat, string)> {
    var n := DigitCount(s);
    if n == 0 then None else Some((Read(s[..n]), s[n..]))
  }

  /** `start[,length]` at the front, the length being 1 when left out, and what follows. */
  function ReadSpan(s: string): Option<(Range, string)> {
    match ReadNumber(s)
    case None => None
    case Some((start, rest)) =>
      Some(ReadLength(start, rest))
  }

  function ReadLength(start: nat, rest: string): (Range, string) {
    if rest == "" || rest[0] != ',' then (Range(start, 1), rest)
    else
      match ReadNumber(rest[1..])
      case None => (Range(start, 1), rest)
      case Some((length, after)) => (Range(start, length), after)
  }

  /** The hunk pattern: `@@ -span +span @@`. */
  function MatchHunk(line: string): Option<Range> {
    if !StartsWith(line, "@@ -") then None
    else
      match ReadSpan(line[4..])
      case None => None
      case Some((range, rest)) => MatchRest(range, rest)
  }

  function MatchRest(found: Range, rest: string): Option<Range> {
    if !StartsWith(rest, " +") then None
    else
      match ReadSpan(rest[2..])
      case None => None
      case Some((_, tail)) => if StartsWith(tail, " @@") then Some(found) else None
  }

  /** The old file that the text after `--- ` names; None outside the `a/` tree and for an empty name. */
  function Source(source: string): Option<string> {
    if StartsWith(source, "a/") && |source| > 2 then Some(source[2..]) else None
  }

  function Step(s: Reading, line: string): Reading {
    if StartsWith(line, "--- ") then Reading(Source(line[4..]), s.hunks)
    else if s.current.Some? && MatchHunk(line).Some? then
      Reading(s.current, Append(s.hunks, s.current.value, [MatchHunk(line).value]))
    else s
  }

  function Run(s: Reading, lines: seq<string>): Reading {
    if lines == [] then s else Step(Run(s, lines[..|lines| - 1]), lines[|lines| - 1])
  }

  const START := Reading(None, map[])

  method ParseHunks(text: string) returns (hunks: Hunks)
    ensures hunks == Run(START, SplitLines(text)).hunks
    ensures forall d :: Readable(d) && text == Joined(DiffLines(d)) ==> hunks == Gathered(d, Kept)
  {
    var current: Option<string> := None;
    hunks := map[];
    var lines := SplitLines(text);
    for i := 0 to |lines|
      invariant Reading(current, hunks) == Run(START, lines[..i])
    {
      var line := lines[i];
      RunNext(START, lines, i);
      if StartsWith(line, "--- ") {
        current := Source(line[4..]);
      } else if current.Some? {
        var found := MatchHunk(line);
        if found.Some? {
          hunks := hunks[current.value := RangesIn(hunks, current.value) + [found.value]];
        }
      }
    }
    assert lines[..|lines|] == lines;
    forall d | Readable(d) && text == Joined(DiffLines(d)) ensures hunks == Gathered(d, Kept) {
      RenderedIsKept(d);
    }
  }

  lemma {:induction false} RunNext(s: Reading, lines: seq<string>, i: nat)
    requires i < |lines|
    ensures Run(s, lines[..i + 1]) == Step(Run(s, lines[..i]), lines[i])
  {
    assert lines[..i + 1][..i] == lines[..i];
  }

  // What the reader makes of a rendered diff.

  /** A removed line that opens with `-- ` is taken for the header of a file outside the tree. */
  predicate Dashed(h: Hunk) {
    exists raw | raw in Stream(h) :: StartsWith(raw, "--- ")
  }

  function Ranges(hs: seq<Hunk>): (r: seq<Range>)
    ensures |r| == |hs| && forall i | 0 <= i < |r| :: r[i] == OldRange(hs[i])
  {
    seq(|hs|, i requires 0 <= i < |hs| => OldRange(hs[i]))
  }

  /** The ranges of a file's hunks, up to the first that holds such a line. */
  function Kept(hs: seq<Hunk>): seq<Range> {
    if hs == [] then []
    else if Dashed(hs[0]) then [OldRange(hs[0])]
    else [OldRange(hs[0])] + Kept(hs[1..])
  }

  function FromFile(hunks: Hunks, f: FileDiff, ranges: seq<Hunk> -> seq<Range>): Hunks {
    if f.before.Some? then Append(hunks, f.before.value, ranges(f.hunks)) else hunks
  }

  function Gathered(d: seq<FileDiff>, ranges: seq<Hunk> -> seq<Range>): Hunks {
    if d == [] then map[] else FromFile(Gathered(d[..|d| - 1], ranges), d[|d| - 1], ranges)
  }

  /** Text that itself names a file of the old tree, or reads as a hunk header after a line break, is beyond this reader. */
  predicate Plain(h: Hunk) {
    forall raw | raw in Stream(h) :: Passive(raw)
  }

  predicate Passive(raw: string) {
    !StartsWith(raw, "--- a/") && MatchHunk(raw).None?
  }

  predicate ReadableFile(f: FileDiff) {
    FromGit(f) && Unbroken(f.preamble) && Unbroken([BeforeLine(f), AfterLine(f)]) && forall h | h in f.hunks :: Plain(h)
  }

  /** Bodies may hold line breaks; the names of files hold none. */
  predicate Readable(d: seq<FileDiff>) {
    forall f | f in d :: ReadableFile(f)
  }

  lemma {:induction false} RunLast(s: Reading, lines: seq<string>, line: string)
    ensures Run(s, lines + [line]) == Step(Run(s, lines), line)
  {
    assert (lines + [line])[..|lines|] == lines;
  }

  lemma {:induction false} RunAppend(s: Reading, a: seq<string>, b: seq<string>)
    ensures Run(s, a + b) == Run(Run(s, a), b)
  {
    if b == [] {
      assert a + b == a;
    } else {
      var n := |b| - 1;
      var most, last := b[..n], b[n];
      assert b == most + [last] && a + b == (a + most) + [last];
      RunLast(s, a + most, last);
      RunLast(Run(s, a), most, last);
      RunAppend(s, a, most);
    }
  }

  lemma {:induction false} OneLine(s: Reading, line: string)
    ensures Run(s, [line]) == Step(s, line)
  {
  }

  predicate Idle(line: string) {
    !StartsWith(line, "--- ") && (line == "" || line[0] != '@')
  }

  lemma {:induction false} IdleRun(s: Reading, lines: seq<string>)
    requires forall line | line in lines :: Idle(line)
    ensures Run(s, lines) == s
  {
    if lines != [] {
      var n := |lines| - 1;
      assert lines[n] in lines;
      IdleRun(s, lines[..n]);
    }
  }

  lemma {:induction false} OutsideSource(raw: string)
    requires StartsWith(raw, "--- ")
    ensures Source(raw[4..]).Some? ==> StartsWith(raw, "--- a/")
  {
    if StartsWith(raw[4..], "a/") {
      assert raw == "--- " + ("a/" + raw[6..]);
    }
  }

  lemma {:induction false} StreamRun(s: Reading, raws: seq<string>)
    requires forall raw | raw in raws :: Passive(raw)
    ensures Run(s, raws) == if exists raw | raw in raws :: StartsWith(raw, "--- ") then Reading(None, s.hunks) else s
  {
    if raws != [] {
      var n := |raws| - 1;
      assert raws == raws[..n] + [raws[n]] && Passive(raws[n]);
      StreamRun(s, raws[..n]);
      if StartsWith(raws[n], "--- ") {
        OutsideSource(raws[n]);
      }
    }
  }

  lemma {:induction false} DigitCountOf(digits: string, rest: string)
    requires (forall c | c in digits :: IsDigit(c)) && (rest == "" || !IsDigit(rest[0]))
    ensures DigitCount(digits + rest) == |digits|
  {
    if digits == "" {
      assert digits + rest == rest;
    } else {
      assert (digits + rest)[1..] == digits[1..] + rest;
      assert forall c | c in digits[1..] :: c in digits;
      DigitCountOf(digits[1..], rest);
    }
  }

  lemma {:induction false} ReadNumberOf(n: nat, rest: string)
    requires rest == "" || !IsDigit(rest[0])
    ensures ReadNumber(Show(n) + rest) == Some((n, rest))
  {
    DigitCountOf(Show(n), rest);
    ReadShow(n);
    assert (Show(n) + rest)[..|Show(n)|] == Show(n);
    assert (Show(n) + rest)[|Show(n)|..] == rest;
  }

  lemma {:induction false} ReadSpanOf(r: Range, rest: string)
    requires rest != "" && rest[0] == ' '
    ensures ReadSpan(ShowRange(r) + rest) == Some((r, rest))
  {
    var more := if r.length == 1 then rest else "," + (Show(r.length) + rest);
    assert ShowRange(r) + rest == Show(r.start) + more;
    ReadNumberOf(r.start, more);
    ReadLengthOf(r, rest);
  }

  lemma {:induction false} ReadLengthOf(r: Range, rest: string)
    requires rest != "" && rest[0] == ' '
    ensures ReadLength(r.start, if r.length == 1 then rest else "," + (Show(r.length) + rest)) == (r, rest)
  {
    if r.length != 1 {
      assert ("," + (Show(r.length) + rest))[1..] == Show(r.length) + rest;
      ReadNumberOf(r.length, rest);
    }
  }

  lemma {:induction false} MatchRestOf(found: Range, r: Range, tail: string)
    requires StartsWith(tail, " @@")
    ensures MatchRest(found, " " + ("+" + (ShowRange(r) + tail))) == Some(found)
  {
    var rest := " " + ("+" + (ShowRange(r) + tail));
    assert rest == " +" + rest[2..];
    assert rest[2..] == ShowRange(r) + tail;
    assert tail[0] == " @@"[0];
    ReadSpanOf(r, tail);
  }

  lemma {:induction false} HeaderStep(h: Hunk)
    ensures MatchHunk(HunkHeader(h)) == Some(OldRange(h))
    ensures !StartsWith(HunkHeader(h), "--- ")
  {
    var line, last := HunkHeader(h), "+" + (ShowRange(NewRange(h)) + HeaderTail(h));
    var rest := " " + last;
    assert line == "@@ -" + (ShowRange(OldRange(h)) + rest);
    assert line[4..] == ShowRange(OldRange(h)) + rest;
    assert line[0] == '@';
    ReadSpanOf(OldRange(h), rest);
    assert HeaderTail(h) == " @@" + h.section;
    MatchRestOf(OldRange(h), NewRange(h), HeaderTail(h));
  }

  /** The first line a hunk is read as still announces its range. */
  lemma {:induction false} FirstStep(s: Reading, h: Hunk)
    ensures Step(s, UpToBreak(HunkHeader(h))) ==
      if s.current.None? then s else Reading(s.current, Append(s.hunks, s.current.value, [OldRange(h)]))
  {
    var cut := h.(section := UpToBreak(h.section));
    HeaderFirst(h);
    HeaderStep(cut);
    assert OldRange(cut) == OldRange(h);
  }

  /** Once the reader has lost the file, the rest of its hunks go by. */
  function AfterHunks(s: Reading, lost: bool, kept: seq<Range>): Reading {
    if s.current.None? then s else Reading(if lost then None else s.current, Append(s.hunks, s.current.value, kept))
  }

  lemma {:induction false} HunkRun(s: Reading, h: Hunk)
    requires Plain(h)
    ensures Run(s, PiecesOf(HunkLines(h))) == AfterHunks(s, Dashed(h), [OldRange(h)])
  {
    var first := [UpToBreak(HunkHeader(h))];
    HunkStream(h);
    RunAppend(s, first, Stream(h));
    OneLine(s, first[0]);
    FirstStep(s, h);
    StreamRun(Step(s, first[0]), Stream(h));
  }

  ghost predicate Loses(hs: seq<Hunk>) {
    exists h | h in hs :: Dashed(h)
  }

  lemma {:induction false} KeptLast(hs: seq<Hunk>)
    requires hs != []
    ensures Kept(hs) == Kept(hs[..|hs| - 1]) + if Loses(hs[..|hs| - 1]) then [] else [OldRange(hs[|hs| - 1])]
  {
    var n := |hs| - 1;
    if n > 0 {
      assert hs[..n] == [hs[0]] + hs[1..][..n - 1];
      if !Dashed(hs[0]) {
        KeptLast(hs[1..]);
        assert hs[..n][1..] == hs[1..][..n - 1];
      }
    }
  }

  lemma {:induction false} AppendTwice(hunks: Hunks, path: string, a: seq<Range>, b: seq<Range>)
    ensures Append(Append(hunks, path, a), path, b) == Append(hunks, path, a + b)
  {
    if a == [] {
      assert a + b == b;
    } else if b == [] {
      assert a + b == a;
    } else {
      assert RangesIn(hunks, path) + a + b == RangesIn(hunks, path) + (a + b);
    }
  }

  lemma {:induction false} LosesLast(hs: seq<Hunk>, last: Hunk)
    ensures Loses(hs + [last]) <==> Loses(hs) || Dashed(last)
  {
    assert forall h :: h in hs + [last] <==> h in hs || h == last;
  }

  lemma {:induction false} AfterTwice(s: Reading, lost: bool, kept: seq<Range>, again: bool, range: Range)
    ensures AfterHunks(AfterHunks(s, lost, kept), again, [range]) ==
      AfterHunks(s, lost || again, kept + if lost then [] else [range])
  {
    assert kept + [] == kept;
    if s.current.Some? {
      AppendTwice(s.hunks, s.current.value, kept, [range]);
    }
  }

  lemma {:induction false} HunksRun(s: Reading, hs: seq<Hunk>)
    requires forall h | h in hs :: Plain(h)
    ensures Run(s, PiecesOf(HunksLines(hs))) == AfterHunks(s, Loses(hs), Kept(hs))
  {
    if hs != [] {
      var n := |hs| - 1;
      var most, last := hs[..n], hs[n];
      assert last in hs && hs == most + [last];
      PiecesAppend(HunksLines(most), HunkLines(last));
      RunAppend(s, PiecesOf(HunksLines(most)), PiecesOf(HunkLines(last)));
      HunksRun(s, most);
      HunkRun(AfterHunks(s, Loses(most), Kept(most)), last);
      KeptLast(hs);
      LosesLast(most, last);
      AfterTwice(s, Loses(most), Kept(most), Dashed(last), OldRange(last));
    }
  }

  lemma {:induction false} PreambleRun(s: Reading, f: FileDiff)
    requires ReadableFile(f)
    ensures Run(s, f.preamble) == s
  {
    forall line | line in f.preamble ensures Idle(line) {
      assert Preamble(line);
    }
    IdleRun(s, f.preamble);
  }

  lemma {:induction false} HeadersRun(s: Reading, f: FileDiff)
    requires f.before != Some("")
    ensures Run(s, [BeforeLine(f), AfterLine(f)]) == Reading(f.before, s.hunks)
  {
    assert [BeforeLine(f), AfterLine(f)] == [BeforeLine(f)] + [AfterLine(f)];
    RunAppend(s, [BeforeLine(f)], [AfterLine(f)]);
    OneLine(s, BeforeLine(f));
    OneLine(Run(s, [BeforeLine(f)]), AfterLine(f));
    BeforeStep(s, f);
    AfterStep(Reading(f.before, s.hunks), f);
  }

  lemma {:induction false} BeforeStep(s: Reading, f: FileDiff)
    requires f.before != Some("")
    ensures Step(s, BeforeLine(f)) == Reading(f.before, s.hunks)
  {
    var line := BeforeLine(f);
    if f.before.Some? {
      assert line == "--- " + ("a/" + f.before.value);
      assert line[4..] == "a/" + f.before.value;
      assert line[4..][2..] == f.before.value;
    } else {
      assert line == "--- " + "/dev/null";
      assert line[4..] == "/dev/null" && line[4..][0] == '/';
    }
  }

  lemma {:induction false} AfterStep(s: Reading, f: FileDiff)
    ensures Step(s, AfterLine(f)) == s
  {
    assert AfterLine(f)[0] == '+';
  }

  lemma {:induction false} FileRun(s: Reading, f: FileDiff)
    requires ReadableFile(f)
    ensures Run(s, PiecesOf(FileLines(f))).hunks == FromFile(s.hunks, f, Kept)
  {
    FilePieces(f);
    PreambleRun(s, f);
    if f.hunks != [] {
      var headers, body := [BeforeLine(f), AfterLine(f)], PiecesOf(HunksLines(f.hunks));
      RunAppend(s, f.preamble, headers + body);
      RunAppend(s, headers, body);
      HeadersRun(s, f);
      HunksRun(Reading(f.before, s.hunks), f.hunks);
    }
  }

  lemma {:induction false} DiffIsKept(d: seq<FileDiff>)
    requires Readable(d)
    ensures Run(START, PiecesOf(DiffLines(d))).hunks == Gathered(d, Kept)
  {
    if d != [] {
      var n := |d| - 1;
      assert d[n] in d;
      DiffIsKept(d[..n]);
      PiecesAppend(DiffLines(d[..n]), FileLines(d[n]));
      RunAppend(START, PiecesOf(DiffLines(d[..n])), PiecesOf(FileLines(d[n])));
      FileRun(Run(START, PiecesOf(DiffLines(d[..n]))), d[n]);
    }
  }

  lemma {:induction false} RenderedIsKept(d: seq<FileDiff>)
    requires Readable(d)
    ensures Run(START, SplitLines(Joined(DiffLines(d)))).hunks == Gathered(d, Kept)
  {
    SplitJoinedPieces(DiffLines(d));
    DiffIsKept(d);
  }

  // When the reader recovers every range.

  /** Only a file's last hunk may remove a line that looks like a header. */
  predicate Faithful(hs: seq<Hunk>) {
    forall i | 0 <= i < |hs| - 1 :: !Dashed(hs[i])
  }

  lemma {:induction false} FaithfulTail(hs: seq<Hunk>)
    requires hs != []
    ensures Faithful(hs) <==> |hs| == 1 || (!Dashed(hs[0]) && Faithful(hs[1..]))
  {
    forall i | 0 < i < |hs| - 1 ensures hs[i] == hs[1..][i - 1] {
    }
    forall i | 0 <= i < |hs[1..]| - 1 ensures hs[1..][i] == hs[i + 1] {
    }
  }

  lemma {:induction false} RangesFirst(hs: seq<Hunk>)
    requires hs != []
    ensures Ranges(hs) == [OldRange(hs[0])] + Ranges(hs[1..])
  {
  }

  lemma {:induction false} OneMore(first: Range, kept: seq<Range>, all: seq<Range>, lost: bool, faithful: bool)
    requires kept <= all && (kept == all <==> faithful)
    ensures var more := if lost then [first] else [first] + kept;
      more <= [first] + all && (more == [first] + all <==> if lost then all == [] else faithful)
  {
    assert ([first] + all)[1..] == all && ([first] + kept)[1..] == kept;
  }

  lemma {:induction false} KeptAllExactly(hs: seq<Hunk>)
    ensures Kept(hs) <= Ranges(hs)
    ensures Kept(hs) == Ranges(hs) <==> Faithful(hs)
  {
    if hs != [] {
      KeptAllExactly(hs[1..]);
      RangesFirst(hs);
      FaithfulTail(hs);
      OneMore(OldRange(hs[0]), Kept(hs[1..]), Ranges(hs[1..]), Dashed(hs[0]), Faithful(hs[1..]));
    }
  }

  /** A file of the old tree comes once in a diff. */
  predicate SourcesOnce(d: seq<FileDiff>) {
    forall i, j | 0 <= i < j < |d| && d[i].before.Some? :: d[i].before != d[j].before
  }

  predicate AllFaithful(d: seq<FileDiff>) {
    forall f | f in d && f.before.Some? :: Faithful(f.hunks)
  }

  lemma {:induction false} GatheredAt(d: seq<FileDiff>, ranges: seq<Hunk> -> seq<Range>, i: nat)
    requires SourcesOnce(d) && i < |d| && d[i].before.Some?
    ensures RangesIn(Gathered(d, ranges), d[i].before.value) == ranges(d[i].hunks)
  {
    var n := |d| - 1;
    if i < n {
      GatheredAt(d[..n], ranges, i);
    } else {
      GatheredElsewhere(d[..n], ranges, d[n].before.value);
    }
  }

  lemma {:induction false} GatheredElsewhere(d: seq<FileDiff>, ranges: seq<Hunk> -> seq<Range>, path: string)
    requires forall f | f in d :: f.before != Some(path)
    ensures RangesIn(Gathered(d, ranges), path) == [] && path !in Gathered(d, ranges)
  {
    if d != [] {
      assert d[|d| - 1] in d;
      GatheredElsewhere(d[..|d| - 1], ranges, path);
    }
  }

  lemma {:induction false} FaithfulDiffs(d: seq<FileDiff>)
    requires AllFaithful(d)
    ensures Gathered(d, Kept) == Gathered(d, Ranges)
  {
    if d != [] {
      var n := |d| - 1;
      assert d[n] in d;
      FaithfulDiffs(d[..n]);
      KeptAllExactly(d[n].hunks);
    }
  }

  /** Every replaced range of every old file is recovered exactly when no earlier hunk is dashed. */
  lemma {:induction false} RecoversExactlyWhenFaithful(d: seq<FileDiff>)
    requires SourcesOnce(d)
    ensures Gathered(d, Kept) == Gathered(d, Ranges) <==> AllFaithful(d)
  {
    if AllFaithful(d) {
      FaithfulDiffs(d);
    }
    if Gathered(d, Kept) == Gathered(d, Ranges) {
      forall f | f in d && f.before.Some? ensures Faithful(f.hunks) {
        var i :| 0 <= i < |d| && d[i] == f;
        GatheredAt(d, Kept, i);
        GatheredAt(d, Ranges, i);
        KeptAllExactly(f.hunks);
      }
    }
  }

  /** The same of the text: whatever line breaks the bodies hold, it is read right exactly then. */
  lemma {:induction false} TextRecoversExactlyWhenFaithful(d: seq<FileDiff>)
    requires Readable(d) && SourcesOnce(d)
    ensures Run(START, SplitLines(Joined(DiffLines(d)))).hunks == Gathered(d, Ranges) <==> AllFaithful(d)
  {
    RenderedIsKept(d);
    RecoversExactlyWhenFaithful(d);
  }

  lemma {:induction false} DashedIn(bodies: seq<string>, rest: seq<string>)
    requires forall raw | raw in rest :: !StartsWith(raw, "--- ")
    ensures (exists raw | raw in Marked('-', bodies) + rest :: StartsWith(raw, "--- ")) <==>
            exists body | body in bodies :: StartsWith(body, "-- ")
  {
    forall i | 0 <= i < |bodies|
      ensures (Marked('-', bodies) + rest)[i] == Marked('-', bodies)[i]
      ensures StartsWith(Marked('-', bodies)[i], "--- ") <==> StartsWith(bodies[i], "-- ")
    {
      DashedLine(bodies[i]);
    }
  }

  /** Without line breaks, the reader takes no other lines than removed ones for such headers. */
  lemma {:induction false} WholeIsDashedExactly(h: Hunk)
    requires BreakFree(h)
    ensures Dashed(h) <==> exists body | body in h.removed :: StartsWith(body, "-- ")
  {
    StreamOfWhole(h);
    forall raw | raw in HunkTail(h) ensures !StartsWith(raw, "--- ") {
      assert raw[0] != '-';
    }
    DashedIn(h.removed, HunkTail(h));
  }

  lemma {:induction false} DashedLine(body: string)
    ensures StartsWith(['-'] + body, "--- ") <==> StartsWith(body, "-- ")
  {
    assert "--- " == ['-'] + "-- ";
    PrefixAfter('-', "-- ", body);
  }

  /** Removing a line that opens with `-- ` hides the hunk that follows it in the same file. */
  lemma {:induction false} DashedLineHidesTheNextHunk(first: Hunk, second: Hunk, body: string)
    requires body in first.removed && StartsWith(body, "-- ")
    ensures Kept([first, second]) == [OldRange(first)]
  {
    var line := ['-'] + body;
    var i :| 0 <= i < |first.removed| && first.removed[i] == body;
    assert Marked('-', first.removed)[i] == line && line in Marked('-', first.removed);
    DashedLine(body);
    FirstKeepsPrefix(line, "--- ");
    PiecesHas(HunkBody(first), line, UpToBreak(line));
    assert UpToBreak(line) in Stream(first);
  }

  /** So does adding a line that opens so after a form feed. */
  lemma {:induction false} FormFeedHidesTheNextHunk(first: Hunk, second: Hunk)
    requires "\U{0C}--- x" in first.added
    ensures Kept([first, second]) == [OldRange(first)]
  {
    var i :| 0 <= i < |first.added| && first.added[i] == "\U{0C}--- x";
    AfterFormFeed(first, i, "--- x");
  }

  lemma {:induction false} AfterFormFeed(h: Hunk, i: nat, piece: string)
    requires i < |h.added| && h.added[i] == ['\U{0C}'] + piece && Whole(piece)
    ensures piece in Stream(h)
  {
    var line := "+" + (['\U{0C}'] + piece);
    assert Marked('+', h.added)[i] == line && line in Marked('+', h.added);
    PiecesAtBreak("+", '\U{0C}', piece);
    PiecesOfWhole(piece);
    assert piece in ["+"] + [piece];
    PiecesHas(HunkBody(h), line, piece);
  }
}
