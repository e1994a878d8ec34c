/** The text of `git diff --unified=0`, as its readers receive it: file headers, hunk headers and bodies. */
module DiffText {
  import opened Json
  import opened Text

  /** A changed range of one side: `length` lines from `start`, or a position when the length is 0. */
  datatype Range = Range(start: nat, length: nat)

  predicate Backend(path: string) {
    EndsWith(path, ".py") && StartsWith(path, "backend/")
  }

  /** `endless` says that the old side ends without a newline, which git notes between the two bodies. */
  datatype Hunk = Hunk(
    oldStart: nat, removed: seq<string>, endless: bool, newStart: nat, added: seq<string>, newEndless: bool,
    section: string)

  /** `before` is None for a new file and `after` for a deleted one. */
  datatype FileDiff = FileDiff(preamble: seq<string>, before: Option<string>, after: Option<string>, hunks: seq<Hunk>)

  const MARKER := "\\ No newline at end of file"

  function OldRange(h: Hunk): Range {
    Range(h.oldStart, |h.removed|)
  }

  function NewRange(h: Hunk): Range {
    Range(h.newStart, |h.added|)
  }

  function ShowRange(r: Range): string {
    if r.length == 1 then Show(r.start) else Show(r.start) + "," + Show(r.length)
  }

  function HunkHeader(h: Hunk): string {
    HeaderFront(h) + ("+" + (ShowRange(NewRange(h)) + HeaderTail(h)))
  }

  function HeaderFront(h: Hunk): string {
    "@@ -" + (ShowRange(OldRange(h)) + " ")
  }

  function HeaderTail(h: Hunk): string {
    " @@" + h.section
  }

  function Marked(c: char, bodies: seq<string>): (r: seq<string>)
    ensures |r| == |bodies| && forall i | 0 <= i < |r| :: r[i] == [c] + bodies[i]
  {
    seq(|bodies|, i requires 0 <= i < |bodies| => [c] + bodies[i])
  }

  function Noted(endless: bool): seq<string> {
    if endless then [MARKER] else []
  }

  function HunkBody(h: Hunk): seq<string> {
    Marked('-', h.removed) + HunkTail(h)
  }

  function HunkTail(h: Hunk): seq<string> {
    Noted(h.endless) + (Marked('+', h.added) + Noted(h.newEndless))
  }

  function HunkLines(h: Hunk): seq<string> {
    [HunkHeader(h)] + HunkBody(h)
  }

  function HunksLines(hs: seq<Hunk>): seq<string> {
    if hs == [] then [] else HunksLines(hs[..|hs| - 1]) + HunkLines(hs[|hs| - 1])
  }

  function BeforeLine(f: FileDiff): string {
    if f.before.Some? then "--- a/" + f.before.value else "--- /dev/null"
  }

  function AfterLine(f: FileDiff): string {
    if f.after.Some? then "+++ b/" + f.after.value else "+++ /dev/null"
  }

  /** Renames, mode changes and binary files have a preamble alone. */
  function FileLines(f: FileDiff): seq<string> {
    if f.hunks == [] then f.preamble else f.preamble + [BeforeLine(f), AfterLine(f)] + HunksLines(f.hunks)
  }

  function DiffLines(d: seq<FileDiff>): seq<string> {
    if d == [] then [] else DiffLines(d[..|d| - 1]) + FileLines(d[|d| - 1])
  }

  /** Preamble lines such as `diff --git`, `index` and `rename from` open with a letter. */
  predicate Preamble(line: string) {
    line != "" && ('a' <= line[0] <= 'z' || 'A' <= line[0] <= 'Z')
  }

  /** What git itself guarantees of the diff: a deleted file gains no line, and names are not empty. */
  predicate FromGit(f: FileDiff) {
    (forall line | line in f.preamble :: Preamble(line)) &&
    (f.after.None? ==> forall h | h in f.hunks :: h.added == []) &&
    f.before != Some("")
  }

  // Line splitting.

  predicate Breaks(c: char) {
    c == '\n' || c == '\r' || c == '\U{0B}' || c == '\U{0C}' || '\U{1C}' <= c <= '\U{1E}' ||
    c == '\U{85}' || c == '\U{2028}' || c == '\U{2029}'
  }

  function UpToBreak(text: string): (r: string)
    ensures r <= text && Whole(r) && (|r| < |text| ==> Breaks(text[|r|]))
  {
    if text == "" || Breaks(text[0]) then "" else [text[0]] + UpToBreak(text[1..])
  }

  function AfterBreak(rest: string): string
    requires rest != ""
  {
    if StartsWith(rest, "\r\n") then rest[2..] else rest[1..]
  }

  /** Python's `splitlines`, which also breaks at form feeds and Unicode separators. */
  function SplitLines(text: string): seq<string>
    decreases |text|
  {
    if text == "" then []
    else
      var line := UpToBreak(text);
      if |line| == |text| then [line] else [line] + SplitLines(AfterBreak(text[|line|..]))
  }

  function Joined(lines: seq<string>): string {
    if lines == [] then "" else lines[0] + "\n" + Joined(lines[1..])
  }

  predicate Whole(line: string) {
    forall c | c in line :: !Breaks(c)
  }

  predicate Unbroken(lines: seq<string>) {
    forall line | line in lines :: Whole(line)
  }

  lemma {:induction false} UpToBreakOf(line: string, rest: string)
    requires Whole(line) && rest != "" && Breaks(rest[0])
    ensures UpToBreak(line + rest) == line
  {
    if line == "" {
      assert line + rest == rest;
    } else {
      assert (line + rest)[1..] == line[1..] + rest;
      assert forall c | c in line[1..] :: c in line;
      UpToBreakOf(line[1..], rest);
    }
  }

  lemma {:induction false} SplitJoined(lines: seq<string>)
    requires Unbroken(lines)
    ensures SplitLines(Joined(lines)) == lines
  {
    if lines != [] {
      var rest := "\n" + Joined(lines[1..]);
      assert Joined(lines) == lines[0] + rest;
      UpToBreakOf(lines[0], rest);
      assert Joined(lines)[|lines[0]|..] == rest;
      assert AfterBreak(rest) == Joined(lines[1..]);
      assert forall line | line in lines[1..] :: line in lines;
      SplitJoined(lines[1..]);
    }
  }

  // Numerals in hunk headers.

  lemma {:induction false} ShowRangeParts(r: Range)
    ensures forall c | c in ShowRange(r) :: IsDigit(c) || c == ','
    ensures Before(ShowRange(r), ',') == Show(r.start)
  {
    if r.length == 1 {
      BeforeOf(Show(r.start), ',', "");
      assert Show(r.start) + "" == Show(r.start);
    } else {
      BeforeOf(Show(r.start), ',', "," + Show(r.length));
      assert ShowRange(r) == Show(r.start) + ("," + Show(r.length));
    }
  }

  lemma {:induction false} ShowsZero(n: nat)
    ensures Show(n) == "0" <==> n == 0
  {
  }
}
