/** The one-off rewrite of the stored records, write by write, with its marker last. */
module MigrateRecordShapes {
  import opened Json
  import opened RecordShape

  type Document = map<string, Json>

  /** Builds the applied branch evaluation of a claim under a fresh identity. */
  type Builder = (Document, string) -> Document

  const MIGRATION_ID := "schema_migration:record-shapes-2026-10"

  function Get(d: Document, key: string): Json {
    if key in d then d[key] else Null
  }

  predicate IsType(d: Document, recordType: string) {
    Get(d, "record_type") == Str(recordType)
  }

  function Id(d: Document): Json {
    Get(d, "_id")
  }

  function Shape(d: Document): Document {
    CurrentShape(Obj(d), None).fields
  }

  predicate Evaluation(d: Document) {
    IsType(d, "branch_evaluation") && Get(d, "status") == Str("applied")
  }

  function Evaluated(docs: seq<Document>): set<Json> {
    set d | d in docs && Evaluation(d) :: Get(d, "claim_id")
  }

  predicate Waits(d: Document, evaluated: set<Json>) {
    IsType(d, "claim") && Get(d, "claim_id") !in evaluated
  }

  function Waiting(docs: seq<Document>, evaluated: set<Json>): seq<Document> {
    if docs == [] then []
    else (if Waits(docs[0], evaluated) then [docs[0]] else []) + Waiting(docs[1..], evaluated)
  }

  /** The claims that no applied evaluation names, in stored order. */
  function Unevaluated(docs: seq<Document>): seq<Document> {
    Waiting(docs, Evaluated(docs))
  }

  predicate OldEvidence(d: Document) {
    IsType(d, "evidence") && Get(d, "kind").Str? && Get(d, "kind").s in OLD_PHOTO_KINDS
  }

  predicate Unfinished(d: Document) {
    IsType(d, "claim_creation_operation") &&
    Get(d, "status") !in {Str("accepted"), Str("terminal_failure")}
  }

  predicate Blocks(d: Document, docs: seq<Document>) {
    Unfinished(d) && exists e | e in docs :: OldEvidence(e) && Get(e, "claim_id") == Get(d, "claim_id")
  }

  predicate Blocked(docs: seq<Document>) {
    exists d | d in docs :: Blocks(d, docs)
  }

  // The writes of one run.

  datatype Write = Replace(doc: Document) | Insert(doc: Document)

  function Position(docs: seq<Document>, id: Json): nat
    ensures Position(docs, id) <= |docs|
  {
    if docs == [] || Id(docs[0]) == id then 0 else 1 + Position(docs[1..], id)
  }

  function ApplyWrite(docs: seq<Document>, w: Write): seq<Document> {
    match w
    case Insert(d) => docs + [d]
    case Replace(d) =>
      var i := Position(docs, Id(d));
      if i < |docs| then docs[i := d] else docs
  }

  function ApplyAll(docs: seq<Document>, writes: seq<Write>): seq<Document> {
    if writes == [] then docs
    else ApplyWrite(ApplyAll(docs, writes[..|writes| - 1]), writes[|writes| - 1])
  }

  function ShapeAll(docs: seq<Document>): (r: seq<Document>)
    ensures |r| == |docs| && forall i | 0 <= i < |docs| :: r[i] == Shape(docs[i])
  {
    seq(|docs|, i requires 0 <= i < |docs| => Shape(docs[i]))
  }

  function Rewrites(docs: seq<Document>): seq<Write> {
    if docs == [] then []
    else
      var d := docs[|docs| - 1];
      Rewrites(docs[..|docs| - 1]) + (if Shape(d) != d then [Replace(Shape(d))] else [])
  }

  function Additions(build: Builder, claims: seq<Document>, ids: nat -> string, from: nat): (r: seq<Document>)
    ensures |r| == |claims|
    ensures forall i | 0 <= i < |claims| :: r[i] == build(claims[i], ids(from + i))
  {
    seq(|claims|, i requires 0 <= i < |claims| => build(claims[i], ids(from + i)))
  }

  function Inserts(docs: seq<Document>): (r: seq<Write>)
    ensures |r| == |docs| && forall i | 0 <= i < |docs| :: r[i] == Insert(docs[i])
  {
    seq(|docs|, i requires 0 <= i < |docs| => Insert(docs[i]))
  }

  function Marker(rewritten: nat, added: nat, appliedAt: string): Document {
    map["_id" := Str(MIGRATION_ID), "record_type" := Str("schema_migration"), "applied_at" := Str(appliedAt),
        "rewritten_records" := Num(rewritten as real), "evaluations_added" := Num(added as real)]
  }

  datatype Setting = Setting(build: Builder, ids: nat -> string, appliedAt: string)

  function Added(run: Setting, stored: seq<Document>): seq<Document> {
    Additions(run.build, Unevaluated(ShapeAll(stored)), run.ids, 0)
  }

  function MarkerOf(run: Setting, stored: seq<Document>): Document {
    Marker(|Rewrites(stored)|, |Added(run, stored)|, run.appliedAt)
  }

  function Writes(run: Setting, stored: seq<Document>): seq<Write> {
    Rewrites(stored) + Inserts(Added(run, stored)) + [Insert(MarkerOf(run, stored))]
  }

  predicate Marked(docs: seq<Document>) {
    exists d | d in docs :: Id(d) == Str(MIGRATION_ID)
  }

  datatype Report =
    | AlreadyApplied
    | DryRun(rewritten: nat, added: nat)
    | Refused
    | Applied(rewritten: nat, added: nat)

  function Migrate(run: Setting, stored: seq<Document>, apply: bool): (seq<Document>, Report) {
    var rewritten, added := |Rewrites(stored)|, |Added(run, stored)|;
    if Marked(stored) then (stored, AlreadyApplied)
    else if !apply then (stored, DryRun(rewritten, added))
    else if Blocked(stored) then (stored, Refused)
    else (ApplyAll(stored, Writes(run, stored)), Applied(rewritten, added))
  }

  lemma {:induction false} ApplyMore(docs: seq<Document>, writes: seq<Write>, w: Write)
    ensures ApplyAll(docs, writes + [w]) == ApplyWrite(ApplyAll(docs, writes), w)
  {
  }

  class Records {
    var documents: seq<Document>

    method ReplaceOne(d: Document)
      modifies this
      ensures documents == ApplyWrite(old(documents), Replace(d))
    {
      var i := 0;
      while i < |documents| && Id(documents[i]) != Id(d)
        invariant i <= |documents| && Position(documents, Id(d)) == i + Position(documents[i..], Id(d))
      {
        assert documents[i..][1..] == documents[i + 1..];
        i := i + 1;
      }
      if i < |documents| {
        documents := documents[i := d];
      }
    }

    method InsertOne(d: Document)
      modifies this
      ensures documents == ApplyWrite(old(documents), Insert(d))
    {
      documents := documents + [d];
    }

    method ReplaceAll(rewrites: seq<Write>)
      requires forall w | w in rewrites :: w.Replace?
      modifies this
      ensures documents == ApplyAll(old(documents), rewrites)
    {
      ghost var stored := documents;
      for i := 0 to |rewrites|
        invariant documents == ApplyAll(stored, rewrites[..i])
      {
        assert rewrites[i] in rewrites && rewrites[..i + 1] == rewrites[..i] + [rewrites[i]];
        ApplyMore(stored, rewrites[..i], rewrites[i]);
        ReplaceOne(rewrites[i].doc);
      }
      assert rewrites[..|rewrites|] == rewrites;
    }

    method InsertAll(added: seq<Document>)
      modifies this
      ensures documents == old(documents) + added
    {
      ghost var stored := documents;
      for i := 0 to |added|
        invariant documents == stored + added[..i]
      {
        InsertOne(added[i]);
      }
    }

    method MigrateRecordShapes(run: Setting, apply: bool) returns (report: Report)
      modifies this
      ensures (documents, report) == Migrate(run, old(documents), apply)
    {
      var stored := documents;
      if Marked(stored) {
        return AlreadyApplied;
      }
      var rewrites := Rewrites(stored);
      var added := Added(run, stored);
      if !apply {
        return DryRun(|rewrites|, |added|);
      }
      if Blocked(stored) {
        return Refused;
      }
      RewritesReplace(stored);
      ReplaceAll(rewrites);
      InsertsApplied(stored, rewrites, added);
      InsertAll(added);
      ApplyMore(stored, rewrites + Inserts(added), Insert(MarkerOf(run, stored)));
      InsertOne(MarkerOf(run, stored));
      return Applied(|rewrites|, |added|);
    }
  }

  lemma {:induction false} RewritesReplace(docs: seq<Document>)
    ensures forall w | w in Rewrites(docs) :: w.Replace?
  {
    if docs != [] { RewritesReplace(docs[..|docs| - 1]); }
  }

  // A run cut off between two writes, and made again.

  const FIXED: set<string> := {"_id", "record_type", "claim_id", "status"}

  /** The fields the migration reads hold no old form themselves. */
  ghost predicate Plain(d: Document) {
    forall k | k in FIXED :: Current(Get(d, k), Some(k))
  }

  ghost predicate Formed(stored: seq<Document>) {
    (forall d | d in stored :: Plain(d)) &&
    (forall i, j | 0 <= i < j < |stored| :: Id(stored[i]) != Id(stored[j])) &&
    (forall i, j | 0 <= i < j < |stored| && IsType(stored[i], "claim") && IsType(stored[j], "claim") ::
       Get(stored[i], "claim_id") != Get(stored[j], "claim_id"))
  }

  /** What is built for a claim in the current shape is an applied evaluation of it, in the current shape too. */
  ghost predicate Builds(build: Builder) {
    forall claim, id | Current(Obj(claim), None) :: EvaluationOf(build(claim, id), claim)
  }

  ghost predicate EvaluationOf(d: Document, claim: Document) {
    Evaluation(d) && Get(d, "claim_id") == Get(claim, "claim_id") && Id(d) != Str(MIGRATION_ID) &&
    Current(Obj(d), None)
  }

  /** The least a builder can build. */
  function BareEvaluation(claim: Document, id: string): Document {
    map["_id" := Str("branch_evaluation:" + id), "record_type" := Str("branch_evaluation"), "status" := Str("applied"),
        "claim_id" := Get(claim, "claim_id")]
  }

  lemma {:induction false} BareIsEvaluation(claim: Document, id: string)
    requires Current(Obj(claim), None)
    ensures EvaluationOf(BareEvaluation(claim, id), claim)
  {
    var d := BareEvaluation(claim, id);
    assert ("branch_evaluation:" + id)[0] == 'b';
    assert d["_id"].s != "incident_image" && d["_id"].s != MIGRATION_ID;
    forall k | k in d ensures Current(d[k], Some(k)) {
    }
  }

  /** There are builders that do. */
  lemma {:induction false} BareBuilds()
    ensures Builds((claim, id) => BareEvaluation(claim, id))
  {
    forall claim: Document, id | Current(Obj(claim), None) ensures EvaluationOf(BareEvaluation(claim, id), claim) {
      BareIsEvaluation(claim, id);
    }
  }

  lemma {:induction false} ShapeKeepsFixed(d: Document)
    requires Plain(d)
    ensures forall k | k in FIXED :: Get(Shape(d), k) == Get(d, k)
    ensures Plain(Shape(d)) && Shape(Shape(d)) == Shape(d)
  {
    forall k | k in FIXED ensures Get(Shape(d), k) == Get(d, k) {
      CurrentIsKept(Get(d, k), Some(k));
    }
    ShapeFixedPoints(Obj(d), None);
  }

  lemma {:induction false} CurrentDocument(d: Document)
    requires Current(Obj(d), None)
    ensures Shape(d) == d
  {
    CurrentIsKept(Obj(d), None);
  }

  /** A document still to be rewritten is the first with its identity. */
  ghost predicate FirstOfId(docs: seq<Document>) {
    forall i, j | 0 <= i < j < |docs| && Shape(docs[j]) != docs[j] :: Id(docs[i]) != Id(docs[j])
  }

  lemma {:induction false} PositionOf(docs: seq<Document>, i: nat)
    requires i < |docs| && forall j | 0 <= j < i :: Id(docs[j]) != Id(docs[i])
    ensures Position(docs, Id(docs[i])) == i
    decreases i
  {
    if i > 0 {
      assert Id(docs[0]) != Id(docs[i]);
      PositionOf(docs[1..], i - 1);
    }
  }

  function Partly(docs: seq<Document>, i: nat): seq<Document>
    requires i <= |docs|
  {
    ShapeAll(docs[..i]) + docs[i..]
  }

  lemma {:induction false} NextPart(docs: seq<Document>, i: nat)
    requires 0 < i <= |docs|
    ensures Partly(docs, i - 1)[i - 1] == docs[i - 1]
    ensures Partly(docs, i) == Partly(docs, i - 1)[i - 1 := Shape(docs[i - 1])]
    ensures forall j | 0 <= j < i - 1 :: Partly(docs, i - 1)[j] == Shape(docs[j])
  {
  }

  lemma {:induction false} ReplaceNext(docs: seq<Document>, i: nat)
    requires 0 < i <= |docs| && FirstOfId(docs) && forall d | d in docs :: Id(Shape(d)) == Id(d)
    requires Shape(docs[i - 1]) != docs[i - 1]
    ensures ApplyWrite(Partly(docs, i - 1), Replace(Shape(docs[i - 1]))) == Partly(docs, i)
  {
    NextPart(docs, i);
    var before := Partly(docs, i - 1);
    assert docs[i - 1] in docs;
    forall j | 0 <= j < i - 1 ensures Id(before[j]) != Id(before[i - 1]) {
      assert docs[j] in docs;
    }
    PositionOf(before, i - 1);
  }

  lemma {:induction false} RewritesApplied(docs: seq<Document>, i: nat)
    requires i <= |docs| && FirstOfId(docs) && forall d | d in docs :: Id(Shape(d)) == Id(d)
    ensures ApplyAll(docs, Rewrites(docs[..i])) == Partly(docs, i)
    decreases i
  {
    if i > 0 {
      RewritesApplied(docs, i - 1);
      var d := docs[i - 1];
      assert docs[..i][..i - 1] == docs[..i - 1] && docs[..i][i - 1] == d;
      if Shape(d) == d {
        NextPart(docs, i);
        assert Rewrites(docs[..i]) == Rewrites(docs[..i - 1]);
      } else {
        ApplyMore(docs, Rewrites(docs[..i - 1]), Replace(Shape(d)));
        ReplaceNext(docs, i);
      }
    } else {
      assert Partly(docs, 0) == docs;
    }
  }

  lemma {:induction false} PrefixOfRewrites(docs: seq<Document>, k: nat) returns (i: nat)
    requires k <= |Rewrites(docs)|
    ensures i <= |docs| && Rewrites(docs)[..k] == Rewrites(docs[..i])
    ensures k == |Rewrites(docs)| ==> i == |docs|
  {
    if k == |Rewrites(docs)| {
      i := |docs|;
      assert docs[..i] == docs;
    } else {
      var front := docs[..|docs| - 1];
      i := PrefixOfRewrites(front, k);
      assert Rewrites(docs)[..k] == Rewrites(front)[..k];
      assert front[..i] == docs[..i];
    }
  }

  lemma {:induction false} InsertsApplied(docs: seq<Document>, writes: seq<Write>, added: seq<Document>)
    ensures ApplyAll(docs, writes + Inserts(added)) == ApplyAll(docs, writes) + added
    decreases |added|
  {
    if added == [] {
      assert writes + Inserts(added) == writes;
    } else {
      var front, last := added[..|added| - 1], added[|added| - 1];
      InsertsApplied(docs, writes, front);
      assert writes + Inserts(added) == writes + Inserts(front) + [Insert(last)];
      ApplyMore(docs, writes + Inserts(front), Insert(last));
      assert front + [last] == added;
    }
  }

  /** What an uninterrupted run leaves: every record current, one evaluation a claim, the marker. */
  lemma {:induction false} WholeRun(run: Setting, stored: seq<Document>)
    requires FirstOfId(stored) && forall d | d in stored :: Id(Shape(d)) == Id(d)
    ensures ApplyAll(stored, Writes(run, stored)) ==
            ShapeAll(stored) + Added(run, stored) + [MarkerOf(run, stored)]
  {
    RewritesApplied(stored, |stored|);
    assert stored[..|stored|] == stored;
    assert Partly(stored, |stored|) == ShapeAll(stored);
    InsertsApplied(stored, Rewrites(stored), Added(run, stored));
    ApplyMore(stored, Rewrites(stored) + Inserts(Added(run, stored)), Insert(MarkerOf(run, stored)));
  }

  lemma {:induction false} CutInRewrites(run: Setting, stored: seq<Document>, k: nat) returns (i: nat)
    requires FirstOfId(stored) && forall d | d in stored :: Id(Shape(d)) == Id(d)
    requires k <= |Rewrites(stored)|
    ensures i <= |stored| && ApplyAll(stored, Writes(run, stored)[..k]) == Partly(stored, i)
    ensures k == |Rewrites(stored)| ==> i == |stored|
  {
    i := PrefixOfRewrites(stored, k);
    RewritesApplied(stored, i);
    assert Writes(run, stored)[..k] == Rewrites(stored)[..k];
  }

  lemma {:induction false} CutInInserts(run: Setting, stored: seq<Document>, j: nat)
    requires FirstOfId(stored) && forall d | d in stored :: Id(Shape(d)) == Id(d)
    requires j <= |Added(run, stored)|
    ensures ApplyAll(stored, Writes(run, stored)[..|Rewrites(stored)| + j]) ==
            Partly(stored, |stored|) + Added(run, stored)[..j]
  {
    var added := Added(run, stored);
    assert stored[..|stored|] == stored;
    RewritesApplied(stored, |stored|);
    assert Inserts(added)[..j] == Inserts(added[..j]);
    assert Writes(run, stored)[..|Rewrites(stored)| + j] == Rewrites(stored) + Inserts(added)[..j];
    InsertsApplied(stored, Rewrites(stored), added[..j]);
  }

  /** Where a run stands after `k` of its writes. */
  lemma {:induction false} CutRun(run: Setting, stored: seq<Document>, k: nat) returns (i: nat, j: nat)
    requires FirstOfId(stored) && forall d | d in stored :: Id(Shape(d)) == Id(d)
    requires k < |Writes(run, stored)|
    ensures i <= |stored| && j <= |Added(run, stored)| && (j > 0 ==> i == |stored|)
    ensures ApplyAll(stored, Writes(run, stored)[..k]) == Partly(stored, i) + Added(run, stored)[..j]
    ensures k == |Writes(run, stored)| - 1 ==> i == |stored| && j == |Added(run, stored)|
  {
    if k < |Rewrites(stored)| {
      i := CutInRewrites(run, stored, k);
      j := 0;
    } else {
      i, j := |stored|, k - |Rewrites(stored)|;
      CutInInserts(run, stored, j);
    }
  }

  /** The document is an evaluation of the claim, under some identity. */
  ghost predicate BuiltFor(build: Builder, claim: Document, d: Document) {
    exists id :: d == build(claim, id)
  }

  ghost predicate AllBuilt(build: Builder, claims: seq<Document>, docs: seq<Document>) {
    |docs| == |claims| && forall j | 0 <= j < |claims| :: BuiltFor(build, claims[j], docs[j])
  }

  lemma {:induction false} BuiltDocument(build: Builder, claim: Document, d: Document)
    requires Builds(build) && BuiltFor(build, claim, d) && Current(Obj(claim), None)
    ensures Evaluation(d) && Get(d, "claim_id") == Get(claim, "claim_id")
    ensures Id(d) != Str(MIGRATION_ID) && Current(Obj(d), None)
  {
  }

  /** The claims that wait are in the current shape already. */
  lemma {:induction false} WaitingIsCurrent(stored: seq<Document>, j: nat)
    requires j < |Unevaluated(ShapeAll(stored))|
    ensures Current(Obj(Unevaluated(ShapeAll(stored))[j]), None)
  {
    var shaped := ShapeAll(stored);
    var claim := Unevaluated(shaped)[j];
    WaitingIsClaims(shaped, Evaluated(shaped));
    assert claim in Unevaluated(shaped);
    var p :| 0 <= p < |shaped| && shaped[p] == claim;
    ShapeIsCurrent(Obj(stored[p]), None);
  }

  ghost predicate Midway(build: Builder, stored: seq<Document>, mid: seq<Document>, i: nat, added: seq<Document>) {
    i <= |stored| && mid == Partly(stored, i) + added && (added != [] ==> i == |stored|) &&
    var waiting := Unevaluated(ShapeAll(stored));
    |added| <= |waiting| && AllBuilt(build, waiting[..|added|], added)
  }

  /** What is known of a stored document, rewritten or not yet. */
  ghost predicate StoredMidway(stored: Document, now: Document, rewritten: bool) {
    Plain(stored) && Shape(now) == Shape(stored) && (forall k | k in FIXED :: Get(now, k) == Get(stored, k)) &&
    now == if rewritten then Shape(stored) else stored
  }

  lemma {:induction false} StoredIsMidway(stored: Document, rewritten: bool)
    requires Plain(stored)
    ensures StoredMidway(stored, if rewritten then Shape(stored) else stored, rewritten)
  {
    ShapeKeepsFixed(stored);
  }

  lemma {:induction false} AddedIsEvaluation(build: Builder, stored: seq<Document>, added: seq<Document>, j: nat)
    requires Builds(build) && j < |added| <= |Unevaluated(ShapeAll(stored))|
    requires AllBuilt(build, Unevaluated(ShapeAll(stored))[..|added|], added)
    ensures EvaluationOf(added[j], Unevaluated(ShapeAll(stored))[j])
  {
    var waiting := Unevaluated(ShapeAll(stored));
    WaitingIsCurrent(stored, j);
    assert waiting[..|added|][j] == waiting[j];
    BuiltDocument(build, waiting[j], added[j]);
  }

  lemma {:induction false} MidwayDocument(
    build: Builder, stored: seq<Document>, mid: seq<Document>, i: nat, added: seq<Document>, p: nat)
    requires Formed(stored) && Builds(build) && Midway(build, stored, mid, i, added) && p < |mid|
    ensures p < |stored| ==> StoredMidway(stored[p], mid[p], p < i)
    ensures p >= |stored| ==>
      mid[p] == added[p - |stored|] && EvaluationOf(mid[p], Unevaluated(ShapeAll(stored))[p - |stored|])
  {
    if p < |stored| {
      assert stored[p] in stored;
      StoredIsMidway(stored[p], p < i);
    } else {
      AddedIsEvaluation(build, stored, added, p - |stored|);
    }
  }

  lemma {:induction false} MidwayShapes(
    build: Builder, stored: seq<Document>, mid: seq<Document>, i: nat, added: seq<Document>)
    requires Formed(stored) && Builds(build) && Midway(build, stored, mid, i, added)
    ensures ShapeAll(mid) == ShapeAll(stored) + added
    ensures FirstOfId(mid) && forall d | d in mid :: Id(Shape(d)) == Id(d)
  {
    forall p | 0 <= p < |mid|
      ensures Shape(mid[p]) == (ShapeAll(stored) + added)[p] && Id(Shape(mid[p])) == Id(mid[p])
    {
      MidwayDocument(build, stored, mid, i, added, p);
      if p < |stored| { ShapeKeepsFixed(stored[p]); } else { CurrentDocument(mid[p]); }
    }
    forall p, q | 0 <= p < q < |mid| && Shape(mid[q]) != mid[q] ensures Id(mid[p]) != Id(mid[q]) {
      MidwayDocument(build, stored, mid, i, added, p);
      MidwayDocument(build, stored, mid, i, added, q);
      if q >= |stored| { CurrentDocument(mid[q]); }
    }
  }

  lemma {:induction false} EvaluationsDoNotWait(added: seq<Document>, evaluated: set<Json>)
    requires forall d | d in added :: Evaluation(d)
    ensures Waiting(added, evaluated) == []
    decreases |added|
  {
    if added != [] {
      assert Evaluation(added[0]);
      EvaluationsDoNotWait(added[1..], evaluated);
    }
  }

  lemma {:induction false} WaitingOfEvaluations(docs: seq<Document>, added: seq<Document>, evaluated: set<Json>)
    requires forall d | d in added :: Evaluation(d)
    ensures Waiting(docs + added, evaluated) == Waiting(docs, evaluated)
    decreases |docs|
  {
    if docs == [] {
      EvaluationsDoNotWait(added, evaluated);
      assert docs + added == added;
    } else {
      WaitingOfEvaluations(docs[1..], added, evaluated);
      assert (docs + added)[1..] == docs[1..] + added;
    }
  }

  function ClaimIds(docs: seq<Document>): set<Json> {
    set d | d in docs :: Get(d, "claim_id")
  }

  lemma {:induction false} WaitingIsClaims(docs: seq<Document>, evaluated: set<Json>)
    ensures forall d :: d in Waiting(docs, evaluated) <==> d in docs && Waits(d, evaluated)
    decreases |docs|
  {
    if docs != [] { WaitingIsClaims(docs[1..], evaluated); }
  }

  ghost predicate ClaimsOnce(docs: seq<Document>) {
    forall i, j | 0 <= i < j < |docs| && IsType(docs[i], "claim") && IsType(docs[j], "claim") ::
      Get(docs[i], "claim_id") != Get(docs[j], "claim_id")
  }

  lemma {:induction false} ClaimIdsOfFirst(d: Document, more: seq<Document>)
    ensures ClaimIds([d] + more) == {Get(d, "claim_id")} + ClaimIds(more)
  {
  }

  /** Evaluating the first of the waiting claims leaves the others waiting, in the same order. */
  lemma {:induction false} WaitingShrinks(docs: seq<Document>, evaluated: set<Json>, j: nat)
    requires ClaimsOnce(docs) && j <= |Waiting(docs, evaluated)|
    ensures Waiting(docs, evaluated + ClaimIds(Waiting(docs, evaluated)[..j])) == Waiting(docs, evaluated)[j..]
    decreases |docs|
  {
    if docs != [] {
      var d, rest := docs[0], docs[1..];
      var waiting := Waiting(rest, evaluated);
      if Waits(d, evaluated) && j > 0 {
        WaitingShrinks(rest, evaluated, j - 1);
        var more := evaluated + ClaimIds(waiting[..j - 1]);
        assert Waiting(docs, evaluated)[..j] == [d] + waiting[..j - 1];
        ClaimIdsOfFirst(d, waiting[..j - 1]);
        AbsentClaim(rest, more, Get(d, "claim_id"));
        assert evaluated + ClaimIds(Waiting(docs, evaluated)[..j]) == more + {Get(d, "claim_id")};
      } else if Waits(d, evaluated) {
        assert evaluated + ClaimIds(Waiting(docs, evaluated)[..0]) == evaluated;
      } else {
        WaitingShrinks(rest, evaluated, j);
        assert Waiting(docs, evaluated) == waiting;
        assert !Waits(d, evaluated + ClaimIds(waiting[..j]));
      }
    }
  }

  lemma {:induction false} AbsentClaim(docs: seq<Document>, evaluated: set<Json>, claim: Json)
    requires forall d | d in docs && IsType(d, "claim") :: Get(d, "claim_id") != claim
    ensures Waiting(docs, evaluated + {claim}) == Waiting(docs, evaluated)
    decreases |docs|
  {
    if docs != [] { AbsentClaim(docs[1..], evaluated, claim); }
  }

  lemma {:induction false} EvaluatedMore(docs: seq<Document>, added: seq<Document>, claims: seq<Document>)
    requires |added| == |claims| && forall j | 0 <= j < |added| :: EvaluationOf(added[j], claims[j])
    ensures Evaluated(docs + added) == Evaluated(docs) + ClaimIds(claims)
  {
    forall x | x in Evaluated(docs) + ClaimIds(claims) ensures x in Evaluated(docs + added) {
      if x !in Evaluated(docs) {
        var j :| 0 <= j < |claims| && Get(claims[j], "claim_id") == x;
        assert EvaluationOf(added[j], claims[j]) && added[j] in docs + added;
      }
    }
    forall x | x in Evaluated(docs + added) ensures x in Evaluated(docs) + ClaimIds(claims) {
      var d :| d in docs + added && Evaluation(d) && Get(d, "claim_id") == x;
      if d !in docs {
        var j :| 0 <= j < |added| && added[j] == d;
        assert EvaluationOf(added[j], claims[j]) && claims[j] in claims;
      }
    }
  }

  lemma {:induction false} MidwayWaiting(
    build: Builder, stored: seq<Document>, mid: seq<Document>, i: nat, added: seq<Document>)
    requires Formed(stored) && Builds(build) && Midway(build, stored, mid, i, added)
    ensures Unevaluated(ShapeAll(mid)) == Unevaluated(ShapeAll(stored))[|added|..]
  {
    var current := ShapeAll(stored);
    var waiting := Unevaluated(current);
    MidwayShapes(build, stored, mid, i, added);
    forall j | 0 <= j < |added| ensures EvaluationOf(added[j], waiting[..|added|][j]) {
      AddedIsEvaluation(build, stored, added, j);
    }
    EvaluatedMore(current, added, waiting[..|added|]);
    WaitingOfEvaluations(current, added, Evaluated(current + added));
    ShapedFixed(stored);
    WaitingShrinks(current, Evaluated(current), |added|);
  }

  lemma {:induction false} MidwayIsFree(
    build: Builder, stored: seq<Document>, mid: seq<Document>, i: nat, added: seq<Document>)
    requires Formed(stored) && Builds(build) && Midway(build, stored, mid, i, added)
    requires !Marked(stored) && !Blocked(stored)
    ensures !Marked(mid) && !Blocked(mid)
  {
    forall d | d in mid ensures Id(d) != Str(MIGRATION_ID) && !Blocks(d, mid) {
      var p :| 0 <= p < |mid| && mid[p] == d;
      MidwayDocument(build, stored, mid, i, added, p);
      if p < |stored| { assert stored[p] in stored && Id(stored[p]) != Str(MIGRATION_ID); }
      if Unfinished(d) {
        assert !Blocks(stored[p], stored);
        forall e | e in mid && OldEvidence(e) ensures Get(e, "claim_id") != Get(d, "claim_id") {
          var q :| 0 <= q < |mid| && mid[q] == e;
          MidwayDocument(build, stored, mid, i, added, q);
          if q < i { ShapedKindIsNew(stored[q]); }
          assert e == stored[q] && stored[q] in stored;
        }
      }
    }
  }

  lemma {:induction false} ShapedKindIsNew(d: Document)
    ensures !OldEvidence(Shape(d))
  {
    ShapeIsCurrent(Obj(d), None);
    if "kind" in Shape(d) { assert Current(Shape(d)["kind"], Some("kind")); }
  }

  /** The same records, and the same claims evaluated in the same order, whatever the fresh ids. */
  ghost predicate SameRecords(
    build: Builder, shaped: seq<Document>, claims: seq<Document>, after: seq<Document>)
  {
    |after| == |shaped| + |claims| + 1 && after[..|shaped|] == shaped &&
    AllBuilt(build, claims, after[|shaped|..|shaped| + |claims|]) &&
    Id(after[|shaped| + |claims|]) == Str(MIGRATION_ID)
  }

  lemma {:induction false} Runs(run: Setting, stored: seq<Document>)
    requires FirstOfId(stored) && forall d | d in stored :: Id(Shape(d)) == Id(d)
    requires !Marked(stored) && !Blocked(stored)
    ensures Migrate(run, stored, true) ==
      (ShapeAll(stored) + Added(run, stored) + [MarkerOf(run, stored)],
       Applied(|Rewrites(stored)|, |Added(run, stored)|))
  {
    WholeRun(run, stored);
  }

  lemma {:induction false} AdditionsAreBuilt(run: Setting, stored: seq<Document>)
    ensures AllBuilt(run.build, Unevaluated(ShapeAll(stored)), Added(run, stored))
  {
  }

  lemma {:induction false} NothingDone(build: Builder, stored: seq<Document>)
    ensures Midway(build, stored, stored, 0, [])
  {
  }

  lemma {:induction false} CutRunIsMidway(
    run: Setting, stored: seq<Document>, k: nat) returns (i: nat, added: seq<Document>)
    requires Formed(stored) && Builds(run.build) && k < |Writes(run, stored)|
    ensures Midway(run.build, stored, ApplyAll(stored, Writes(run, stored)[..k]), i, added)
    ensures k == |Writes(run, stored)| - 1 ==> i == |stored| && added == Added(run, stored)
  {
    FormedCuts(run.build, stored);
    var j;
    i, j := CutRun(run, stored, k);
    added := Added(run, stored)[..j];
    AddedPrefix(run, stored, j);
  }

  lemma {:induction false} FormedCuts(build: Builder, stored: seq<Document>)
    requires Formed(stored) && Builds(build)
    ensures FirstOfId(stored) && forall d | d in stored :: Id(Shape(d)) == Id(d)
  {
    NothingDone(build, stored);
    MidwayShapes(build, stored, stored, 0, []);
  }

  lemma {:induction false} AddedPrefix(run: Setting, stored: seq<Document>, j: nat)
    requires j <= |Added(run, stored)|
    ensures
      var waiting := Unevaluated(ShapeAll(stored));
      j <= |waiting| && AllBuilt(run.build, waiting[..j], Added(run, stored)[..j])
  {
    AdditionsAreBuilt(run, stored);
  }

  lemma {:induction false} ResumedRecords(
    build: Builder, shaped: seq<Document>, claims: seq<Document>, added: seq<Document>, rest: seq<Document>,
    marker: Document)
    requires |added| <= |claims| && AllBuilt(build, claims[..|added|], added)
    requires AllBuilt(build, claims[|added|..], rest) && Id(marker) == Str(MIGRATION_ID)
    ensures SameRecords(build, shaped, claims, shaped + added + rest + [marker])
  {
  }

  lemma {:induction false} ResumedRun(
    again: Setting, stored: seq<Document>, mid: seq<Document>, i: nat, added: seq<Document>)
    requires Formed(stored) && Builds(again.build) && Midway(again.build, stored, mid, i, added)
    requires !Marked(stored) && !Blocked(stored)
    ensures Migrate(again, mid, true).1.Applied?
    ensures SameRecords(again.build, ShapeAll(stored), Unevaluated(ShapeAll(stored)), Migrate(again, mid, true).0)
  {
    MidwayIsFree(again.build, stored, mid, i, added);
    MidwayShapes(again.build, stored, mid, i, added);
    MidwayWaiting(again.build, stored, mid, i, added);
    Runs(again, mid);
    AdditionsAreBuilt(again, mid);
    ResumedRecords(again.build, ShapeAll(stored), Unevaluated(ShapeAll(stored)), added, Added(again, mid),
                   MarkerOf(again, mid));
  }

  /** An undisturbed run leaves every record current and evaluates every claim that had none. */
  lemma {:induction false} SettledRun(run: Setting, stored: seq<Document>)
    requires Formed(stored) && Builds(run.build) && !Marked(stored) && !Blocked(stored)
    ensures Migrate(run, stored, true).1.Applied?
    ensures SameRecords(run.build, ShapeAll(stored), Unevaluated(ShapeAll(stored)), Migrate(run, stored, true).0)
  {
    NothingDone(run.build, stored);
    ResumedRun(run, stored, stored, 0, []);
  }

  /**
   Crash and resume: cut off after any of its writes but the marker and made again, the migration
   is not refused and ends in the records of an undisturbed run, whatever the fresh ids.
   */
  lemma {:induction false} CrashResumes(run: Setting, again: Setting, stored: seq<Document>, k: nat)
    requires Formed(stored) && Builds(run.build) && again.build == run.build
    requires !Marked(stored) && !Blocked(stored) && k < |Writes(run, stored)|
    ensures var mid := ApplyAll(stored, Writes(run, stored)[..k]);
      Migrate(again, mid, true).1.Applied? &&
      SameRecords(run.build, ShapeAll(stored), Unevaluated(ShapeAll(stored)), Migrate(again, mid, true).0)
  {
    var i, added := CutRunIsMidway(run, stored, k);
    ResumedRun(again, stored, ApplyAll(stored, Writes(run, stored)[..k]), i, added);
  }

  lemma {:induction false} NothingLeft(
    again: Setting, stored: seq<Document>, mid: seq<Document>, added: seq<Document>)
    requires Formed(stored) && Builds(again.build) && Midway(again.build, stored, mid, |stored|, added)
    requires |added| == |Unevaluated(ShapeAll(stored))|
    ensures ShapeAll(mid) == mid && Rewrites(mid) == [] && Added(again, mid) == []
  {
    MidwayShapes(again.build, stored, mid, |stored|, added);
    MidwayWaiting(again.build, stored, mid, |stored|, added);
    assert stored[..|stored|] == stored;
    NoRewrites(mid);
  }

  /** With only the marker lost, the rerun finds every record current and writes the marker alone. */
  lemma {:induction false} OnlyMarkerMissing(run: Setting, again: Setting, stored: seq<Document>)
    requires Formed(stored) && Builds(run.build) && again.build == run.build
    requires !Marked(stored) && !Blocked(stored)
    ensures var mid := ApplyAll(stored, Writes(run, stored)[..|Writes(run, stored)| - 1]);
      Migrate(again, mid, true) == (mid + [MarkerOf(again, mid)], Applied(0, 0))
  {
    var k := |Writes(run, stored)| - 1;
    var mid := ApplyAll(stored, Writes(run, stored)[..k]);
    var i, added := CutRunIsMidway(run, stored, k);
    DoneButForMarker(again, stored, mid, added);
  }

  lemma {:induction false} DoneButForMarker(
    again: Setting, stored: seq<Document>, mid: seq<Document>, added: seq<Document>)
    requires Formed(stored) && Builds(again.build) && Midway(again.build, stored, mid, |stored|, added)
    requires !Marked(stored) && !Blocked(stored) && |added| == |Unevaluated(ShapeAll(stored))|
    ensures Migrate(again, mid, true) == (mid + [MarkerOf(again, mid)], Applied(0, 0))
  {
    NothingLeft(again, stored, mid, added);
    MidwayIsFree(again.build, stored, mid, |stored|, added);
    MidwayShapes(again.build, stored, mid, |stored|, added);
    Runs(again, mid);
    assert mid + [] + [MarkerOf(again, mid)] == mid + [MarkerOf(again, mid)];
  }

  lemma {:induction false} NoRewrites(docs: seq<Document>)
    requires docs == ShapeAll(docs)
    ensures Rewrites(docs) == []
    decreases |docs|
  {
    if docs != [] {
      var front := docs[..|docs| - 1];
      assert front == ShapeAll(front);
      NoRewrites(front);
    }
  }

  lemma {:induction false} AddedClaims(run: Setting, stored: seq<Document>)
    requires Formed(stored) && Builds(run.build)
    ensures var claims, added := Unevaluated(ShapeAll(stored)), Added(run, stored);
      |added| == |claims| && forall j | 0 <= j < |added| :: Get(added[j], "claim_id") == Get(claims[j], "claim_id")
  {
    var claims, added := Unevaluated(ShapeAll(stored)), Added(run, stored);
    forall j | 0 <= j < |added| ensures Get(added[j], "claim_id") == Get(claims[j], "claim_id") {
      WaitingIsCurrent(stored, j);
      assert EvaluationOf(run.build(claims[j], run.ids(j)), claims[j]);
    }
  }

  lemma {:induction false} StoredClaimWaits(stored: seq<Document>, d: Document) returns (j: nat)
    requires Formed(stored) && d in stored && IsType(d, "claim") && Get(d, "claim_id") !in Evaluated(stored)
    ensures j < |Unevaluated(ShapeAll(stored))|
    ensures Get(Unevaluated(ShapeAll(stored))[j], "claim_id") == Get(d, "claim_id")
  {
    var shaped := ShapeAll(stored);
    ShapedFixed(stored);
    ShapedEvaluated(stored);
    WaitingIsClaims(shaped, Evaluated(shaped));
    var p :| 0 <= p < |stored| && stored[p] == d;
    assert shaped[p] in shaped && Waits(shaped[p], Evaluated(shaped));
    j :| 0 <= j < |Unevaluated(shaped)| && Unevaluated(shaped)[j] == shaped[p];
  }

  predicate OnlyAt(docs: seq<Document>, claim: Json, j: nat) {
    j < |docs| && forall i | 0 <= i < |docs| :: Get(docs[i], "claim_id") == claim <==> i == j
  }

  /** Exactly one evaluation is added for each claim that had none. */
  lemma {:induction false} OneEvaluationEach(run: Setting, stored: seq<Document>, d: Document)
    requires Formed(stored) && Builds(run.build) && d in stored && IsType(d, "claim")
    requires Get(d, "claim_id") !in Evaluated(stored)
    ensures exists j: nat :: OnlyAt(Added(run, stored), Get(d, "claim_id"), j)
  {
    var j := StoredClaimWaits(stored, d);
    AddedClaims(run, stored);
    ShapedFixed(stored);
    WaitingDistinct(ShapeAll(stored), Evaluated(ShapeAll(stored)));
    assert OnlyAt(Added(run, stored), Get(d, "claim_id"), j);
  }

  /** No evaluation is added for a claim that has one. */
  lemma {:induction false} NoSecondEvaluation(run: Setting, stored: seq<Document>, j: nat)
    requires Formed(stored) && Builds(run.build) && j < |Added(run, stored)|
    ensures Get(Added(run, stored)[j], "claim_id") !in Evaluated(stored)
  {
    var shaped := ShapeAll(stored);
    AddedClaims(run, stored);
    ShapedEvaluated(stored);
    WaitingIsClaims(shaped, Evaluated(shaped));
    assert Unevaluated(shaped)[j] in Unevaluated(shaped);
  }

  lemma {:induction false} ShapedFixed(stored: seq<Document>)
    requires Formed(stored)
    ensures forall p | 0 <= p < |stored| :: forall k | k in FIXED :: Get(Shape(stored[p]), k) == Get(stored[p], k)
    ensures ClaimsOnce(ShapeAll(stored))
  {
    forall p | 0 <= p < |stored| ensures forall k | k in FIXED :: Get(Shape(stored[p]), k) == Get(stored[p], k) {
      assert stored[p] in stored;
      ShapeKeepsFixed(stored[p]);
    }
  }

  lemma {:induction false} ShapedEvaluated(stored: seq<Document>)
    requires Formed(stored)
    ensures Evaluated(ShapeAll(stored)) == Evaluated(stored)
  {
    ShapedFixed(stored);
    var shaped := ShapeAll(stored);
    forall x | x in Evaluated(stored) ensures x in Evaluated(shaped) {
      var p :| 0 <= p < |stored| && Evaluation(stored[p]) && Get(stored[p], "claim_id") == x;
      assert shaped[p] in shaped && Evaluation(shaped[p]);
    }
    forall x | x in Evaluated(shaped) ensures x in Evaluated(stored) {
      var p :| 0 <= p < |shaped| && Evaluation(shaped[p]) && Get(shaped[p], "claim_id") == x;
      assert stored[p] in stored && Evaluation(stored[p]);
    }
  }

  lemma {:induction false} WaitingDistinct(docs: seq<Document>, evaluated: set<Json>)
    requires ClaimsOnce(docs)
    ensures forall i, j | 0 <= i < j < |Waiting(docs, evaluated)| ::
      Get(Waiting(docs, evaluated)[i], "claim_id") != Get(Waiting(docs, evaluated)[j], "claim_id")
    decreases |docs|
  {
    if docs != [] {
      var rest := Waiting(docs[1..], evaluated);
      WaitingDistinct(docs[1..], evaluated);
      WaitingIsClaims(docs[1..], evaluated);
      forall j | 0 <= j < |rest| ensures IsType(docs[0], "claim") ==> Get(rest[j], "claim_id") != Get(docs[0], "claim_id") {
        assert rest[j] in rest;
        var p :| 0 <= p < |docs[1..]| && docs[1..][p] == rest[j];
        assert docs[p + 1] == rest[j];
      }
    }
  }
}
