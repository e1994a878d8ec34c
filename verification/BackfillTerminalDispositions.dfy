/** The backfill of terminal dispositions: judge each candidate claim, then update it if it is still as judged. */
module BackfillTerminalDispositions {
  import opened Json
  import Strings = Text

  /** A stored value where a string is expected. */
  datatype Field = Absent | Text(text: string) | NotText

  /** A timestamp is None when it is missing, unreadable or without an offset; a number when it is not an integer. */
  type Time = Option<int>

  datatype External =
    | External(created: bool, createdAt: Time, externalId: Field, claimNumber: Field)
    | NotDocument(created: bool)

  datatype Disposition = Disposition(decision: string, externalRef: string, recordedAt: int, recordedRevision: int)

  datatype Claim = Claim(
    claimId: Field, customerId: Field, revision: Option<int>, sourceRevision: Option<int>, external: Option<External>,
    updatedAt: Time, disposition: Option<Disposition>)

  type Key = string
  type Claims = map<Key, Claim>

  /** A stored agent decision, `authorisesCreation` meaning an authorised claim creation with its reason. */
  datatype Decision = Decision(
    claimId: Field, customerId: Field, authorisesCreation: bool, resultingRevision: Option<int>, decisionId: Field,
    createdAt: Time)

  datatype Reason =
    | NoClaimId | NoCustomerId | NoRevision | NoSourceRevision | EarlyRevision | NoExternal | NoReference | NoRecordedAt
    | NoUpdatedAt | RecordedAfterUpdate | NotOneDecision | NoDecisionId | NoDecisionAt | DecidedAfterRecord | RepeatedReference

  datatype Verdict = Eligible(disposition: Disposition) | Rejected(reason: Reason)

  // Judging a claim.

  predicate Named(f: Field) {
    f.Text? && !Strings.Blank(f.text)
  }

  predicate Positive(n: Option<int>) {
    n.Some? && n.value >= 1
  }

  /** The external identifier unless it is empty, then the claim number. */
  function Reference(x: External): Field
    requires x.External?
  {
    if x.externalId == Absent || x.externalId == Text("") then x.claimNumber else x.externalId
  }

  predicate Authorises(d: Decision, c: Claim) {
    d.claimId == c.claimId && d.customerId == c.customerId && d.authorisesCreation &&
    d.resultingRevision == c.sourceRevision
  }

  function Authorising(decisions: seq<Decision>, c: Claim): seq<Decision> {
    if decisions == [] then []
    else (if Authorises(decisions[0], c) then [decisions[0]] else []) + Authorising(decisions[1..], c)
  }

  /**
   Judges a claim against the stored decisions; the first fault decides. The last is the disposition
   record's own: its two source references must differ.
   */
  function Judge(c: Claim, decisions: seq<Decision>): Verdict {
    if !Named(c.claimId) then Rejected(NoClaimId)
    else if !Named(c.customerId) then Rejected(NoCustomerId)
    else if !Positive(c.revision) then Rejected(NoRevision)
    else if !Positive(c.sourceRevision) then Rejected(NoSourceRevision)
    else if c.sourceRevision.value + 1 > c.revision.value then Rejected(EarlyRevision)
    else if c.external.None? || c.external.value.NotDocument? then Rejected(NoExternal)
    else
      var x := c.external.value;
      if !Named(Reference(x)) then Rejected(NoReference)
      else if x.createdAt.None? then Rejected(NoRecordedAt)
      else if c.updatedAt.None? then Rejected(NoUpdatedAt)
      else if x.createdAt.value > c.updatedAt.value then Rejected(RecordedAfterUpdate)
      else
        var found := Authorising(decisions, c);
        if |found| != 1 then Rejected(NotOneDecision)
        else if !Named(found[0].decisionId) then Rejected(NoDecisionId)
        else if found[0].createdAt.None? then Rejected(NoDecisionAt)
        else if found[0].createdAt.value > x.createdAt.value then Rejected(DecidedAfterRecord)
        else if found[0].decisionId == Reference(x) then Rejected(RepeatedReference)
        else
          Eligible(Disposition(
            found[0].decisionId.text, Reference(x).text, x.createdAt.value, c.sourceRevision.value + 1))
  }

  /** The provenance a disposition rests on. */
  ghost predicate Provable(c: Claim, decisions: seq<Decision>, d: Disposition) {
    c.external.Some? && c.external.value.External? &&
    var x := c.external.value;
    Named(c.claimId) && Named(c.customerId) && Positive(c.revision) && Positive(c.sourceRevision) &&
    d.recordedRevision == c.sourceRevision.value + 1 <= c.revision.value &&
    Named(Reference(x)) && Reference(x) == Text(d.externalRef) && d.externalRef != d.decision &&
    x.createdAt == Some(d.recordedAt) && c.updatedAt.Some? && d.recordedAt <= c.updatedAt.value &&
    exists i :: Vouches(decisions, i, c, d)
  }

  /** Decision `i` alone authorises the claim's creation, is the one recorded, and is not later than the record. */
  ghost predicate Vouches(decisions: seq<Decision>, i: int, c: Claim, d: Disposition) {
    OnlyAuthorises(decisions, i, c) && Named(decisions[i].decisionId) && decisions[i].decisionId == Text(d.decision) &&
    decisions[i].createdAt.Some? && decisions[i].createdAt.value <= d.recordedAt
  }

  ghost predicate OnlyAuthorises(decisions: seq<Decision>, i: int, c: Claim) {
    0 <= i < |decisions| && forall j | 0 <= j < |decisions| :: Authorises(decisions[j], c) <==> j == i
  }

  lemma {:induction false} AuthorisingNone(decisions: seq<Decision>, c: Claim)
    ensures Authorising(decisions, c) == [] <==> forall j | 0 <= j < |decisions| :: !Authorises(decisions[j], c)
  {
    if decisions != [] {
      AuthorisingNone(decisions[1..], c);
      assert forall j | 1 <= j < |decisions| :: decisions[j] == decisions[1..][j - 1];
    }
  }

  lemma {:induction false} AuthorisingOne(decisions: seq<Decision>, c: Claim, i: int)
    requires OnlyAuthorises(decisions, i, c)
    ensures Authorising(decisions, c) == [decisions[i]]
  {
    var rest := decisions[1..];
    assert forall j | 1 <= j < |decisions| :: decisions[j] == rest[j - 1];
    if i == 0 {
      AuthorisingNone(rest, c);
    } else {
      assert Authorises(decisions[0], c) <==> 0 == i;
      AuthorisingOne(rest, c, i - 1);
    }
  }

  lemma {:induction false} OneAuthorises(decisions: seq<Decision>, c: Claim) returns (i: int)
    requires |Authorising(decisions, c)| == 1
    ensures OnlyAuthorises(decisions, i, c) && Authorising(decisions, c) == [decisions[i]]
  {
    var rest := decisions[1..];
    assert forall j | 1 <= j < |decisions| :: decisions[j] == rest[j - 1];
    if Authorises(decisions[0], c) {
      i := 0;
      AuthorisingNone(rest, c);
    } else {
      i := OneAuthorises(rest, c);
      i := i + 1;
    }
  }

  /** A claim is eligible for a disposition exactly when its provenance proves it. */
  lemma {:induction false} EligibleExactlyWhenProvable(c: Claim, decisions: seq<Decision>, d: Disposition)
    ensures Judge(c, decisions) == Eligible(d) <==> Provable(c, decisions, d)
  {
    if |Authorising(decisions, c)| == 1 {
      var i := OneAuthorises(decisions, c);
      assert Judge(c, decisions) == Eligible(d) ==> Vouches(decisions, i, c, d);
    }
    if Provable(c, decisions, d) {
      var i :| Vouches(decisions, i, c, d);
      AuthorisingOne(decisions, c, i);
    }
  }

  // The store, shared with other writers.

  predicate Candidate(c: Claim) {
    c.disposition.None? && c.external.Some? && c.external.value.created
  }

  /** The guard of the conditional update: every field the judgement rests on except the time of update. */
  predicate StillAsJudged(now: Claim, judged: Claim, ref: string) {
    now.claimId == judged.claimId && now.customerId == judged.customerId && now.revision == judged.revision &&
    now.disposition.None? && now.sourceRevision == judged.sourceRevision &&
    now.external.Some? && now.external.value.External? && now.external.value.created &&
    judged.external.Some? && judged.external.value.External? &&
    now.external.value.createdAt == judged.external.value.createdAt &&
    (now.external.value.externalId == Text(ref) || now.external.value.claimNumber == Text(ref))
  }

  /**
   One write of the backfill: what was judged, against which decisions, the claim before and after,
   and the decisions stored when it is written.
   */
  datatype Write = Write(
    key: Key, judged: Claim, decisions: seq<Decision>, before: Claim, after: Claim, stored: seq<Decision>)

  ghost predicate SoundWrite(w: Write) {
    exists d :: Provable(w.judged, w.decisions, d) && StillAsJudged(w.before, w.judged, d.externalRef) &&
      w.after == w.before.(disposition := Some(d))
  }

  /** A write changes the disposition alone, and the claim as written bears out its revision and its record time. */
  lemma {:induction false} WriteSetsDisposition(w: Write)
    requires SoundWrite(w)
    ensures w.before.disposition.None? && w.after.disposition.Some? && w.after.(disposition := None) == w.before
    ensures
      var d := w.after.disposition.value;
      w.after.sourceRevision == Some(d.recordedRevision - 1) && w.after.revision.Some? &&
      d.recordedRevision <= w.after.revision.value && w.after.external.value.createdAt == Some(d.recordedAt) &&
      d.recordedAt <= w.judged.updatedAt.value
  {
  }

  lemma {:induction false} SameVouching(decisions: seq<Decision>, c: Claim, other: Claim, d: Disposition)
    requires c.claimId == other.claimId && c.customerId == other.customerId && c.sourceRevision == other.sourceRevision
    ensures (exists i :: Vouches(decisions, i, c, d)) <==> exists i :: Vouches(decisions, i, other, d)
  {
    forall j | 0 <= j < |decisions| ensures Authorises(decisions[j], c) <==> Authorises(decisions[j], other) {
    }
    if i :| Vouches(decisions, i, c, d) {
      assert Vouches(decisions, i, other, d);
    }
    if i :| Vouches(decisions, i, other, d) {
      assert Vouches(decisions, i, c, d);
    }
  }

  /**
   The claim as written proves its disposition, by the decisions it was judged with, exactly when the
   stored claim has an update time no earlier than the record and still goes by the recorded reference.
   */
  lemma {:induction false} WrittenDispositionIsProvable(w: Write)
    requires SoundWrite(w)
    ensures
      var d := w.after.disposition.value;
      Provable(w.after, w.decisions, d) <==>
      w.before.updatedAt.Some? && d.recordedAt <= w.before.updatedAt.value &&
      Reference(w.before.external.value) == Text(d.externalRef)
  {
    var d :| Provable(w.judged, w.decisions, d) && StillAsJudged(w.before, w.judged, d.externalRef) &&
      w.after == w.before.(disposition := Some(d));
    SameVouching(w.decisions, w.judged, w.after, d);
  }

  /** By the decisions stored when it is written, exactly when one of them also vouches for it still. */
  lemma {:induction false} WrittenDispositionIsProvableThen(w: Write)
    requires SoundWrite(w)
    ensures
      var d := w.after.disposition.value;
      Provable(w.after, w.stored, d) <==>
      w.before.updatedAt.Some? && d.recordedAt <= w.before.updatedAt.value &&
      Reference(w.before.external.value) == Text(d.externalRef) &&
      exists i :: Vouches(w.stored, i, w.before, d)
  {
    var d :| Provable(w.judged, w.decisions, d) && StillAsJudged(w.before, w.judged, d.externalRef) &&
      w.after == w.before.(disposition := Some(d));
    SameVouching(w.stored, w.before, w.after, d);
  }

  // The three ways in which it does not.

  /** A claim known by its number, and the decision that authorised it. */
  const NUMBERED := Claim(
    Text("c"), Text("k"), Some(2), Some(1), Some(External(true, Some(5), Absent, Text("n"))), Some(9), None)
  const AUTHORISED := Decision(Text("c"), Text("k"), true, Some(1), Text("d"), Some(4))
  const RECORDED := Disposition("d", "n", 5, 2)

  lemma {:induction false} NumberedIsProvable()
    ensures Candidate(NUMBERED) && Provable(NUMBERED, [AUTHORISED], RECORDED)
  {
    assert !Strings.Blank("c") && !Strings.Blank("k") && !Strings.Blank("n") && !Strings.Blank("d") by {
      assert 'c' in "c" && 'k' in "k" && 'n' in "n" && 'd' in "d";
    }
    assert Vouches([AUTHORISED], 0, NUMBERED, RECORDED);
  }

  /** Another writer gives the claim an external identifier: the recorded number is no longer its reference. */
  lemma {:induction false} ReferenceMayBeReplaced(key: Key)
    ensures
      var before := NUMBERED.(external := Some(External(true, Some(5), Text("x"), Text("n"))));
      var w := Write(key, NUMBERED, [AUTHORISED], before, before.(disposition := Some(RECORDED)), [AUTHORISED]);
      SoundWrite(w) && !Provable(w.after, w.decisions, RECORDED)
  {
    NumberedIsProvable();
    var before := NUMBERED.(external := Some(External(true, Some(5), Text("x"), Text("n"))));
    assert StillAsJudged(before, NUMBERED, RECORDED.externalRef);
    assert Text("x") != Text("n") by {
      assert "x"[0] != "n"[0];
    }
  }

  /** Another writer sets an update time that precedes the record. */
  lemma {:induction false} UpdateTimeMayBeReplaced(key: Key)
    ensures
      var before := NUMBERED.(updatedAt := Some(3));
      var w := Write(key, NUMBERED, [AUTHORISED], before, before.(disposition := Some(RECORDED)), [AUTHORISED]);
      SoundWrite(w) && !Provable(w.after, w.decisions, RECORDED)
  {
    NumberedIsProvable();
    assert StillAsJudged(NUMBERED.(updatedAt := Some(3)), NUMBERED, RECORDED.externalRef);
  }

  /** Another writer stores a second decision that authorises the creation. */
  lemma {:induction false} DecisionMayBeJoined(key: Key, other: Decision)
    requires Authorises(other, NUMBERED)
    ensures
      var w := Write(
        key, NUMBERED, [AUTHORISED], NUMBERED, NUMBERED.(disposition := Some(RECORDED)), [AUTHORISED, other]);
      SoundWrite(w) && !Provable(w.after, w.stored, RECORDED)
  {
    NumberedIsProvable();
    assert StillAsJudged(NUMBERED, NUMBERED, RECORDED.externalRef);
    var after, stored := NUMBERED.(disposition := Some(RECORDED)), [AUTHORISED, other];
    assert Authorises(stored[0], after) && Authorises(stored[1], after);
  }

  /** A decision whose identifier is the external reference cannot be recorded with it. */
  lemma {:induction false} RepeatedReferenceIsRejected()
    ensures
      var c := NUMBERED.(external := Some(External(true, Some(5), Absent, Text("d"))));
      Judge(c, [AUTHORISED]) == Rejected(RepeatedReference)
  {
    var c := NUMBERED.(external := Some(External(true, Some(5), Absent, Text("d"))));
    assert !Strings.Blank("c") && !Strings.Blank("k") && !Strings.Blank("d") by {
      assert 'c' in "c" && 'k' in "k" && 'd' in "d";
    }
    AuthorisingOne([AUTHORISED], c, 0);
  }

  class Collection {
    var claims: Claims
    var decisions: seq<Decision>
    const quiet: bool
    /** The writes of the last run of the backfill. */
    ghost var writes: seq<Write>

    /** Whatever other writers do between two of the backfill's operations. */
    method OthersWrite()
      modifies this`claims, this`decisions
      ensures quiet ==> claims == old(claims) && decisions == old(decisions)
    {
      if !quiet {
        claims, decisions := *, *;
      }
    }

    method UpdateOne(key: Key, judged: Claim, ghost judgedWith: seq<Decision>, d: Disposition) returns (applied: bool)
      modifies this`claims, this`writes
      ensures applied <==> key in old(claims) && StillAsJudged(old(claims)[key], judged, d.externalRef)
      ensures !applied ==> claims == old(claims) && writes == old(writes)
      ensures applied ==>
        claims == old(claims)[key := old(claims)[key].(disposition := Some(d))] &&
        writes == old(writes) + [Write(key, judged, judgedWith, old(claims)[key], claims[key], decisions)]
    {
      applied := key in claims && StillAsJudged(claims[key], judged, d.externalRef);
      if applied {
        ghost var before := claims[key];
        claims := claims[key := claims[key].(disposition := Some(d))];
        writes := writes + [Write(key, judged, judgedWith, before, claims[key], decisions)];
      }
    }
  }

  datatype Report = Report(
    candidates: nat, eligible: seq<Key>, applied: seq<Key>, rejected: seq<(Key, Reason)>, conflicts: seq<Key>)

  /** The claims after a run that no other writer disturbs. */
  function Backfilled(claims: Claims, decisions: seq<Decision>, keys: set<Key>): Claims {
    map k | k in claims ::
      if k in keys && Candidate(claims[k]) && Judge(claims[k], decisions).Eligible? then
        claims[k].(disposition := Some(Judge(claims[k], decisions).disposition))
      else claims[k]
  }

  predicate WouldWrite(claims: Claims, decisions: seq<Decision>, key: Key) {
    key in claims && Candidate(claims[key]) && Judge(claims[key], decisions).Eligible?
  }

  function Keys(rejected: seq<(Key, Reason)>): (r: seq<Key>)
    ensures |r| == |rejected| && forall i | 0 <= i < |r| :: r[i] == rejected[i].0
  {
    seq(|rejected|, i requires 0 <= i < |rejected| => rejected[i].0)
  }

  /** Every candidate is reported once, and when applying each eligible one is applied or in conflict. */
  ghost predicate Tallied(report: Report, done: set<Key>, apply: bool) {
    multiset(report.eligible) + multiset(Keys(report.rejected)) == multiset(done) &&
    multiset(report.applied) + multiset(report.conflicts) == if apply then multiset(report.eligible) else multiset{}
  }

  /** The report has grown by one key: rejected, or eligible and, when applying, updated or found changed. */
  ghost predicate Reported(was: Report, now: Report, key: Key, apply: bool) {
    now.candidates == was.candidates &&
    if now.eligible == was.eligible then
      |now.rejected| > 0 && now == was.(rejected := was.rejected + [now.rejected[|now.rejected| - 1]]) &&
      now.rejected[|now.rejected| - 1].0 == key
    else
      now.eligible == was.eligible + [key] && now.rejected == was.rejected &&
      Updated(was, now, if apply then [key] else [])
  }

  ghost predicate Updated(was: Report, now: Report, keys: seq<Key>) {
    (now.applied == was.applied + keys && now.conflicts == was.conflicts) ||
    (now.applied == was.applied && now.conflicts == was.conflicts + keys)
  }

  lemma {:induction false} TallyOne(was: Report, now: Report, key: Key, done: set<Key>, apply: bool)
    requires Tallied(was, done, apply) && Reported(was, now, key, apply) && key !in done
    ensures Tallied(now, done + {key}, apply)
  {
    KeysTally(was, now, key, done, apply);
    if now.eligible != was.eligible {
      UpdatedTally(was, now, if apply then [key] else []);
    }
  }

  lemma {:induction false} KeysTally(was: Report, now: Report, key: Key, done: set<Key>, apply: bool)
    requires multiset(was.eligible) + multiset(Keys(was.rejected)) == multiset(done)
    requires Reported(was, now, key, apply) && key !in done
    ensures multiset(now.eligible) + multiset(Keys(now.rejected)) == multiset(done + {key})
  {
    assert multiset(done + {key}) == multiset(done) + multiset{key};
    if now.eligible == was.eligible {
      assert Keys(now.rejected) == Keys(was.rejected) + [key];
    }
  }

  lemma {:induction false} UpdatedTally(was: Report, now: Report, keys: seq<Key>)
    requires Updated(was, now, keys)
    ensures multiset(now.applied) + multiset(now.conflicts) == multiset(was.applied) + multiset(was.conflicts) + multiset(keys)
  {
  }

  /** The writes are sound and are those of the applied keys, in order. */
  ghost predicate Matched(writes: seq<Write>, applied: seq<Key>) {
    |writes| == |applied| && forall i | 0 <= i < |applied| :: writes[i].key == applied[i] && SoundWrite(writes[i])
  }

  /** One key more is applied, with its write, or nothing is. */
  ghost predicate Wrote(was: Report, now: Report, key: Key, before: seq<Write>, after: seq<Write>) {
    if now.applied == was.applied then after == before
    else
      now.applied == was.applied + [key] && |after| == |before| + 1 && after == before + [after[|before|]] &&
      after[|before|].key == key && SoundWrite(after[|before|])
  }

  lemma {:induction false} MatchOne(was: Report, now: Report, key: Key, before: seq<Write>, after: seq<Write>)
    requires Matched(before, was.applied) && Wrote(was, now, key, before, after)
    ensures Matched(after, now.applied)
  {
  }

  /** What the report says of the key is the judgement of its claim. */
  ghost predicate Tells(was: Report, now: Report, key: Key, verdict: Verdict) {
    match verdict
    case Eligible(_) => now.eligible == was.eligible + [key] && now.rejected == was.rejected
    case Rejected(reason) => now.eligible == was.eligible && now.rejected == was.rejected + [(key, reason)]
  }

  ghost predicate Honest(report: Report, claims: Claims, decisions: seq<Decision>) {
    (forall k | k in report.eligible :: WouldWrite(claims, decisions, k)) &&
    forall x | x in report.rejected :: x.0 in claims && Judge(claims[x.0], decisions) == Rejected(x.1)
  }

  ghost predicate AllApplied(report: Report, apply: bool) {
    apply ==> report.conflicts == [] && report.applied == report.eligible
  }

  /** Judges one candidate and, when applying, updates it if it is still as judged. */
  method BackfillOne(store: Collection, apply: bool, key: Key, claim: Claim, was: Report) returns (report: Report)
    requires store.quiet ==> key in store.claims && store.claims[key] == claim
    requires Candidate(claim)
    modifies store`claims, store`decisions, store`writes
    ensures Reported(was, report, key, apply) && Wrote(was, report, key, old(store.writes), store.writes)
    ensures store.quiet && AllApplied(was, apply) ==> AllApplied(report, apply)
    ensures store.quiet ==>
      store.decisions == old(store.decisions) && Tells(was, report, key, Judge(claim, store.decisions)) &&
      store.claims == Backfilled(old(store.claims), old(store.decisions), if apply then {key} else {})
  {
    store.OthersWrite();
    ghost var decisions := store.decisions;
    match Judge(claim, store.decisions)
    case Rejected(reason) =>
      report := was.(rejected := was.rejected + [(key, reason)]);
    case Eligible(disposition) =>
      report := was.(eligible := was.eligible + [key]);
      EligibleExactlyWhenProvable(claim, decisions, disposition);
      store.OthersWrite();
      if apply {
        var applied := store.UpdateOne(key, claim, decisions, disposition);
        if applied {
          report := report.(applied := report.applied + [key]);
        } else {
          report := report.(conflicts := report.conflicts + [key]);
        }
      }
  }

  lemma {:induction false} BackfilledOne(claims: Claims, decisions: seq<Decision>, done: set<Key>, key: Key)
    requires key !in done && key in claims
    ensures
      var now := Backfilled(claims, decisions, done);
      key in now && now[key] == claims[key] &&
      Backfilled(now, decisions, {key}) == Backfilled(claims, decisions, done + {key})
  {
  }

  /** A run that no other writer disturbs tells the truth and applies every eligible disposition. */
  ghost predicate Undisturbed(
    start: Claims, decisions: seq<Decision>, done: set<Key>, now: Claims, report: Report, apply: bool)
  {
    now == Backfilled(start, decisions, if apply then done else {}) && Honest(report, start, decisions) &&
    AllApplied(report, apply)
  }

  lemma {:induction false} UndisturbedOne(
    start: Claims, decisions: seq<Decision>, done: set<Key>, claims: Claims, was: Report, key: Key, now: Claims,
    report: Report, apply: bool)
    requires key in start && key !in done && Candidate(start[key]) && Undisturbed(start, decisions, done, claims, was, apply)
    requires AllApplied(report, apply) && Tells(was, report, key, Judge(start[key], decisions))
    requires now == Backfilled(claims, decisions, if apply then {key} else {})
    ensures Undisturbed(start, decisions, done + {key}, now, report, apply)
  {
    BackfilledOne(start, decisions, if apply then done else {}, key);
  }

  /** What the loop knows of the keys it is done with. */
  ghost predicate Progress(
    quiet: bool, apply: bool, start: Claims, judges: seq<Decision>, done: set<Key>, report: Report, writes: seq<Write>,
    claims: Claims, decisions: seq<Decision>)
  {
    Tallied(report, done, apply) && Matched(writes, report.applied) &&
    (quiet ==> decisions == judges && Undisturbed(start, judges, done, claims, report, apply))
  }

  /** The next candidate, which an undisturbed run finds as it was. */
  method BackfillNext(
    store: Collection, apply: bool, ghost start: Claims, ghost judges: seq<Decision>, ghost done: set<Key>, key: Key,
    claim: Claim, was: Report)
    returns (report: Report)
    requires Progress(store.quiet, apply, start, judges, done, was, store.writes, store.claims, store.decisions)
    requires key !in done && key in start && start[key] == claim && Candidate(claim)
    modifies store`claims, store`decisions, store`writes
    ensures Progress(store.quiet, apply, start, judges, done + {key}, report, store.writes, store.claims, store.decisions)
    ensures report.candidates == was.candidates
  {
    ghost var writes, claims := store.writes, store.claims;
    if store.quiet {
      BackfilledOne(start, judges, if apply then done else {}, key);
    }
    report := BackfillOne(store, apply, key, claim, was);
    TallyOne(was, report, key, done, apply);
    MatchOne(was, report, key, writes, store.writes);
    if store.quiet {
      UndisturbedOne(start, judges, done, claims, was, key, store.claims, report, apply);
    }
  }

  method Backfill(store: Collection, apply: bool) returns (report: Report)
    modifies store`claims, store`decisions, store`writes
    ensures
      var candidates := set k | k in old(store.claims) && Candidate(old(store.claims)[k]);
      Tallied(report, candidates, apply) && report.candidates == |candidates|
    ensures Matched(store.writes, report.applied) && (!apply ==> store.writes == [])
    ensures store.quiet ==>
      store.decisions == old(store.decisions) &&
      Undisturbed(old(store.claims), store.decisions, old(store.claims).Keys, store.claims, report, apply)
  {
    ghost var start, judges := store.claims, store.decisions;
    var candidates := map k | k in store.claims && Candidate(store.claims[k]) :: store.claims[k];
    report := Report(|candidates|, [], [], [], []);
    store.writes := [];
    var todo := candidates.Keys;
    ghost var done: set<Key> := {};
    while todo != {}
      invariant done == candidates.Keys - todo && todo <= candidates.Keys
      invariant report.candidates == |candidates|
      invariant Progress(store.quiet, apply, start, judges, done, report, store.writes, store.claims, store.decisions)
      decreases todo
    {
      var key := First(todo);
      report := BackfillNext(store, apply, start, judges, done, key, candidates[key], report);
      todo, done := todo - {key}, done + {key};
    }
    assert done == candidates.Keys == set k | k in start && Candidate(start[k]);
    NothingApplied(report, done);
    OnlyCandidates(start, judges, candidates.Keys);
  }

  lemma {:induction false} NothingApplied(report: Report, done: set<Key>)
    ensures Tallied(report, done, false) ==> report.applied == []
  {
    if Tallied(report, done, false) {
      assert |multiset(report.applied)| + |multiset(report.conflicts)| == |multiset(report.applied) + multiset(report.conflicts)|;
    }
  }

  lemma {:induction false} OnlyCandidates(claims: Claims, decisions: seq<Decision>, keys: set<Key>)
    requires keys == set k | k in claims && Candidate(claims[k])
    ensures Backfilled(claims, decisions, keys) == Backfilled(claims, decisions, claims.Keys)
  {
  }

  /** A second undisturbed run finds only the claims that the first rejected, and changes nothing. */
  lemma {:induction false} SecondRunChangesNothing(claims: Claims, decisions: seq<Decision>)
    ensures
      var once := Backfilled(claims, decisions, claims.Keys);
      Backfilled(once, decisions, once.Keys) == once &&
      forall k | k in once && Candidate(once[k]) :: claims[k] == once[k] && Judge(once[k], decisions).Rejected?
  {
  }
}
