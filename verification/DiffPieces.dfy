/** What becomes of rendered lines that hold a Python line break: each is read as several lines. */
module DiffPieces {
  import opened Text
  import opened DiffText

  /**
   The lines that one rendered line is read as; only the first carries its mark. A carriage return at
   the end goes with the line feed that follows.
   */
  function Pieces(line: string): (r: seq<string>)
    ensures r != [] && r[0] == UpToBreak(line)
    decreases |line|
  {
    var first := UpToBreak(line);
    var tail := line[|first|..];
    [first] + if tail == "" || tail == "\r" then [] else Pieces(AfterBreak(tail))
  }

  function PiecesOf(lines: seq<string>): seq<string> {
    if lines == [] then [] else PiecesOf(lines[..|lines| - 1]) + Pieces(lines[|lines| - 1])
  }

  lemma {:induction false} SplitFirst(first: string, rest: string)
    requires Whole(first) && rest != "" && Breaks(rest[0])
    ensures SplitLines(first + rest) == [first] + SplitLines(AfterBreak(rest))
  {
    UpToBreakOf(first, rest);
    assert (first + rest)[|first|..] == rest;
  }

  lemma {:induction false} FirstAndTail(line: string)
    ensures
      var first := UpToBreak(line);
      line == first + line[|first|..] && (line[|first|..] != "" ==> Breaks(line[|first|..][0]))
  {
  }

  function Tail(line: string): string {
    line[|UpToBreak(line)|..]
  }

  lemma {:induction false} SplitStep(line: string, more: string)
    requires more != "" && Breaks(more[0])
    ensures SplitLines(line + more) == [UpToBreak(line)] + SplitLines(AfterBreak(Tail(line) + more))
  {
    var first, tail := UpToBreak(line), Tail(line);
    FirstAndTail(line);
    assert line + more == first + (tail + more);
    SplitFirst(first, tail + more);
  }

  lemma {:induction false} PiecesStep(line: string)
    ensures Pieces(line) == if Tail(line) == "" || Tail(line) == "\r" then [UpToBreak(line)]
                            else [UpToBreak(line)] + Pieces(AfterBreak(Tail(line)))
  {
  }

  /** A line feed ends a line, whatever follows it. */
  lemma {:induction false} SplitAfter(line: string, rest: string)
    ensures SplitLines(line + ("\n" + rest)) == Pieces(line) + SplitLines(rest)
    decreases |line|
  {
    var tail := Tail(line);
    SplitStep(line, "\n" + rest);
    PiecesStep(line);
    if tail == "" || tail == "\r" {
      AfterEnd(tail, rest);
    } else {
      FirstAndTail(line);
      BreakInside(tail, "\n" + rest);
      SplitAfter(AfterBreak(tail), rest);
      Nested([UpToBreak(line)], Pieces(AfterBreak(tail)), SplitLines(rest));
    }
  }

  lemma {:induction false} Nested(a: seq<string>, b: seq<string>, c: seq<string>)
    ensures a + (b + c) == a + b + c
  {
  }

  lemma {:induction false} AfterEnd(tail: string, rest: string)
    requires tail == "" || tail == "\r"
    ensures AfterBreak(tail + ("\n" + rest)) == rest
  {
    var more := "\n" + rest;
    if tail == "" {
      assert tail + more == more && more[0] == '\n' && more[1..] == rest;
    } else {
      assert tail + more == "\r\n" + rest;
    }
  }

  lemma {:induction false} BreakInside(tail: string, more: string)
    requires tail != "" && Breaks(tail[0]) && tail != "\r"
    ensures AfterBreak(tail + more) == AfterBreak(tail) + more
  {
    if StartsWith(tail, "\r\n") {
      assert tail + more == "\r\n" + (tail[2..] + more);
    } else if |tail| > 1 {
      assert (tail + more)[..2] == tail[..2];
    }
  }

  lemma {:induction false} JoinedFirst(line: string, more: seq<string>)
    ensures Joined([line] + more) == line + ("\n" + Joined(more))
  {
    assert ([line] + more)[1..] == more;
    assert line + "\n" + Joined(more) == line + ("\n" + Joined(more));
  }

  lemma {:induction false} SplitPieces(lines: seq<string>, more: seq<string>)
    ensures SplitLines(Joined(lines + more)) == PiecesOf(lines) + SplitLines(Joined(more))
    decreases |lines|
  {
    if lines == [] {
      assert lines + more == more;
    } else {
      var n := |lines| - 1;
      var most, last := lines[..n], lines[n];
      assert lines == most + [last] && lines + more == most + ([last] + more);
      SplitPieces(most, [last] + more);
      JoinedFirst(last, more);
      SplitAfter(last, Joined(more));
      PiecesLast(most, last);
      Nested(PiecesOf(most), Pieces(last), SplitLines(Joined(more)));
    }
  }

  /** Reading a text of rendered lines is reading their pieces. */
  lemma {:induction false} SplitJoinedPieces(lines: seq<string>)
    ensures SplitLines(Joined(lines)) == PiecesOf(lines)
  {
    assert lines + [] == lines;
    SplitPieces(lines, []);
  }

  lemma {:induction false} PiecesOfWhole(line: string)
    requires Whole(line)
    ensures Pieces(line) == [line]
  {
    WholeThen(line, "");
    assert line + "" == line;
  }

  lemma {:induction false} PiecesLast(lines: seq<string>, line: string)
    ensures PiecesOf(lines + [line]) == PiecesOf(lines) + Pieces(line)
  {
    assert (lines + [line])[..|lines|] == lines;
  }

  lemma {:induction false} PiecesAppend(a: seq<string>, b: seq<string>)
    ensures PiecesOf(a + b) == PiecesOf(a) + PiecesOf(b)
    decreases |b|
  {
    if b == [] {
      assert a + b == a;
    } else {
      var n := |b| - 1;
      var most, last := b[..n], b[n];
      assert b == most + [last] && a + b == (a + most) + [last];
      PiecesLast(a + most, last);
      PiecesLast(most, last);
      PiecesAppend(a, most);
      Nested(PiecesOf(a), PiecesOf(most), Pieces(last));
    }
  }

  lemma {:induction false} PiecesOfOne(line: string)
    ensures PiecesOf([line]) == Pieces(line)
  {
    PiecesLast([], line);
    assert [] + [line] == [line];
  }

  lemma {:induction false} PiecesOfUnbroken(lines: seq<string>)
    requires Unbroken(lines)
    ensures PiecesOf(lines) == lines
  {
    if lines != [] {
      var n := |lines| - 1;
      var most, last := lines[..n], lines[n];
      assert lines == most + [last] && last in lines;
      PiecesOfWhole(last);
      PiecesOfUnbroken(most);
      PiecesLast(most, last);
    }
  }

  /** One break cuts a line in two. */
  lemma {:induction false} PiecesAtBreak(first: string, c: char, rest: string)
    requires Whole(first) && Breaks(c) && c != '\r'
    ensures Pieces(first + ([c] + rest)) == [first] + Pieces(rest)
  {
    var line, tail := first + ([c] + rest), [c] + rest;
    UpToBreakOf(first, tail);
    assert line[|first|..] == tail && tail[0] == c && tail[1..] == rest;
  }

  /** The first piece keeps every prefix that holds no break. */
  lemma {:induction false} FirstKeepsPrefix(line: string, prefix: string)
    requires Whole(prefix)
    ensures StartsWith(UpToBreak(line), prefix) <==> StartsWith(line, prefix)
  {
    if prefix != "" && line != "" {
      assert prefix[0] in prefix;
      if !Breaks(line[0]) {
        FirstKeepsPrefix(line[1..], prefix[1..]);
        PrefixAfter(line[0], prefix[1..], line[1..]);
        PrefixAfter(line[0], prefix[1..], UpToBreak(line[1..]));
        assert prefix == [prefix[0]] + prefix[1..] && line == [line[0]] + line[1..];
      }
    }
  }

  /** The first piece of a hunk header is the header of the hunk with the first piece of its section. */
  lemma {:induction false} HeaderFirst(h: Hunk)
    ensures UpToBreak(HunkHeader(h)) == HunkHeader(h.(section := UpToBreak(h.section)))
  {
    SectionLast(h);
    SectionLast(h.(section := UpToBreak(h.section)));
    HeaderIsWhole(h.(section := ""));
    WholeThen(HunkHeader(h.(section := "")), h.section);
  }

  lemma {:induction false} SectionLast(h: Hunk)
    ensures HunkHeader(h) == HunkHeader(h.(section := "")) + h.section
  {
    var tail := HeaderTail(h.(section := ""));
    assert HeaderTail(h) == tail + h.section;
    Regroup(HeaderFront(h), ShowRange(NewRange(h)), tail, h.section);
  }

  lemma {:induction false} Regroup(a: string, b: string, c: string, d: string)
    ensures a + ("+" + (b + (c + d))) == a + ("+" + (b + c)) + d
  {
  }

  lemma {:induction false} WholeThen(front: string, rest: string)
    requires Whole(front)
    ensures UpToBreak(front + rest) == front + UpToBreak(rest)
  {
    if front == "" {
      assert front + rest == rest;
    } else {
      assert (front + rest)[1..] == front[1..] + rest && front[0] in front;
      WholeThen(front[1..], rest);
    }
  }

  lemma {:induction false} HeaderIsWhole(h: Hunk)
    requires Whole(h.section)
    ensures Whole(HunkHeader(h))
  {
    ShowRangeParts(OldRange(h));
    ShowRangeParts(NewRange(h));
  }

  // Hunks and files.

  /** No text of the hunk holds a line break. */
  predicate BreakFree(h: Hunk) {
    Whole(h.section) && Unbroken(h.removed) && Unbroken(h.added)
  }

  /** The lines that a hunk is read as, after the one that opens it. */
  function Stream(h: Hunk): seq<string> {
    Pieces(HunkHeader(h))[1..] + PiecesOf(HunkBody(h))
  }

  lemma {:induction false} HunkStream(h: Hunk)
    ensures PiecesOf(HunkLines(h)) == [UpToBreak(HunkHeader(h))] + Stream(h)
  {
    var header, body := HunkHeader(h), HunkBody(h);
    PiecesAppend([header], body);
    PiecesOfOne(header);
    var pieces := Pieces(header);
    assert pieces == [UpToBreak(header)] + pieces[1..];
    Nested([UpToBreak(header)], pieces[1..], PiecesOf(body));
  }

  lemma {:induction false} StreamOfBody(h: Hunk)
    requires Whole(h.section)
    ensures Stream(h) == PiecesOf(HunkBody(h))
  {
    HeaderIsWhole(h);
    PiecesOfWhole(HunkHeader(h));
  }

  lemma {:induction false} StreamOfWhole(h: Hunk)
    requires BreakFree(h)
    ensures Stream(h) == HunkBody(h)
  {
    WholeLines(h);
    PiecesOfUnbroken(HunkLines(h));
    HunkStream(h);
    assert HunkLines(h)[1..] == HunkBody(h);
  }

  lemma {:induction false} WholeLines(h: Hunk)
    requires BreakFree(h)
    ensures Unbroken(HunkLines(h))
  {
    var removed, added := Marked('-', h.removed), Marked('+', h.added);
    HeaderIsWhole(h);
    MarkedIsUnbroken('-', h.removed);
    MarkedIsUnbroken('+', h.added);
    NotedIsUnbroken(h.endless);
    NotedIsUnbroken(h.newEndless);
    UnbrokenAppend(added, Noted(h.newEndless));
    UnbrokenAppend(Noted(h.endless), added + Noted(h.newEndless));
    UnbrokenAppend(removed, HunkTail(h));
    UnbrokenAppend([HunkHeader(h)], HunkBody(h));
  }

  lemma {:induction false} UnbrokenAppend(a: seq<string>, b: seq<string>)
    requires Unbroken(a) && Unbroken(b)
    ensures Unbroken(a + b)
  {
  }

  lemma {:induction false} NotedIsUnbroken(endless: bool)
    ensures Unbroken(Noted(endless))
  {
    assert Whole(MARKER);
  }

  lemma {:induction false} MarkedIsUnbroken(c: char, bodies: seq<string>)
    requires !Breaks(c) && Unbroken(bodies)
    ensures Unbroken(Marked(c, bodies))
  {
    forall i | 0 <= i < |bodies| ensures Whole([c] + bodies[i]) {
      assert bodies[i] in bodies;
    }
  }

  lemma {:induction false} FilePieces(f: FileDiff)
    requires Unbroken(f.preamble) && Unbroken([BeforeLine(f), AfterLine(f)])
    ensures PiecesOf(FileLines(f)) ==
      if f.hunks == [] then f.preamble else f.preamble + ([BeforeLine(f), AfterLine(f)] + PiecesOf(HunksLines(f.hunks)))
  {
    PiecesOfUnbroken(f.preamble);
    if f.hunks != [] {
      var headers, body := [BeforeLine(f), AfterLine(f)], HunksLines(f.hunks);
      PiecesOfUnbroken(headers);
      PiecesAppend(f.preamble + headers, body);
      PiecesAppend(f.preamble, headers);
      Nested(f.preamble, headers, PiecesOf(body));
    }
  }

  lemma {:induction false} PiecesHas(lines: seq<string>, line: string, piece: string)
    requires line in lines && piece in Pieces(line)
    ensures piece in PiecesOf(lines)
  {
    var n := |lines| - 1;
    if line != lines[n] {
      assert lines == lines[..n] + [lines[n]];
      PiecesHas(lines[..n], line, piece);
    }
  }
}
