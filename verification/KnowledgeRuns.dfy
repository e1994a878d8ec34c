/** What every run of knowledge administration keeps, stopped publications included. */
module KnowledgeRuns {
  import opened Json
  import opened KnowledgeLifecycle

  ghost predicate OnePublished(records: Records) {
    forall document, a, b :: Serves(records, document, a) && Serves(records, document, b) ==> a == b
  }

  /** Publication needs validation evidence, and awaiting approval means it passed. */
  ghost predicate Evidenced(records: Records) {
    forall id | id in records ::
      (records[id].status in {Published, Superseded} ==> records[id].evidence.Some?) &&
      (records[id].status == AwaitingApproval ==> records[id].evidence == Some(true)) &&
      (records[id].previous.Some? ==> records[id].status in {Published, Superseded, Withdrawn})
  }

  ghost predicate LinkKept(records: Records, id: Id)
    requires id in records
  {
    records[id].previous.Some? ==>
      var p := records[id].previous.value;
      p in records && records[p].status == Superseded && records[p].document == records[id].document
  }

  ghost predicate Linked(records: Records) {
    forall id | id in records :: LinkKept(records, id)
  }

  /** Links lead to records of a lower rank. */
  ghost predicate RankedBy(records: Records, rank: Id -> nat) {
    forall id | id in records && records[id].previous.Some? :: rank(records[id].previous.value) < rank(id)
  }

  ghost predicate Inv(records: Records) {
    OnePublished(records) && Evidenced(records) && Linked(records) && exists rank: Id -> nat :: RankedBy(records, rank)
  }

  // One request.

  /** An accepted request other than a publication changes one record, which keeps its links and document. */
  lemma {:induction false} SimpleKeeps(records: Records, id: Id, r: Record, rank: Id -> nat)
    requires OnePublished(records) && Evidenced(records) && Linked(records) && RankedBy(records, rank)
    requires id !in records || records[id].status != Superseded
    requires r.previous == (if id in records then records[id].previous else None)
    requires id in records ==> r.document == records[id].document
    requires r.status != Published && r.status != Superseded
    requires r.status == AwaitingApproval ==> r.evidence == Some(true)
    requires r.previous.Some? ==> r.status == Withdrawn
    ensures Inv(records[id := r])
  {
    var next := records[id := r];
    forall document, a, b | Serves(next, document, a) && Serves(next, document, b) ensures a == b {
      assert Serves(records, document, a) && Serves(records, document, b);
    }
    forall x | x in next ensures LinkKept(next, x) {
      if x in records {
        assert LinkKept(records, x);
      }
    }
    assert RankedBy(next, rank);
  }

  lemma {:induction false} SupersedingKeeps(records: Records, id: Id, previous: Option<Id>, at: int, rank: Id -> nat)
    requires OnePublished(records) && Evidenced(records) && Linked(records) && RankedBy(records, rank)
    requires id in records && records[id].status != Published && IsActive(records, records[id].document, previous)
    ensures
      var next := Superseding(records, previous, at);
      OnePublished(next) && Evidenced(next) && Linked(next) && RankedBy(next, rank) &&
      id in next && next[id] == records[id] && forall a :: !Serves(next, records[id].document, a)
  {
    var next := Superseding(records, previous, at);
    var document := records[id].document;
    assert previous.Some? ==> Serves(records, document, previous.value);
    forall d, a | Serves(next, d, a) ensures Serves(records, d, a) && d != document {
      assert Serves(records, d, a);
    }
    forall x | x in next ensures LinkKept(next, x) {
      assert LinkKept(records, x);
    }
  }

  lemma {:induction false} PublishingKeeps(records: Records, id: Id, r: Record, previous: Option<Id>, rank: Id -> nat)
    requires OnePublished(records) && Evidenced(records) && Linked(records) && RankedBy(records, rank)
    requires id in records && records[id].status in {Indexed, AwaitingApproval}
    requires forall a :: !Serves(records, records[id].document, a)
    requires r.status == Published && r.evidence.Some? && r.document == records[id].document && r.previous == previous
    requires
      previous.Some? ==>
        previous.value in records && records[previous.value].status == Superseded &&
        records[previous.value].document == r.document
    ensures Inv(records[id := r])
  {
    var next := records[id := r];
    forall document, a, b | Serves(next, document, a) && Serves(next, document, b) ensures a == b {
      if a == id || b == id {
        assert document == r.document;
        assert !Serves(records, document, a) && !Serves(records, document, b);
      } else {
        assert Serves(records, document, a) && Serves(records, document, b);
      }
    }
    forall x | x in next ensures LinkKept(next, x) {
      if x != id {
        assert LinkKept(records, x);
      }
    }
    var above := (x: Id) => if x == id && previous.Some? then rank(previous.value) + 1 else rank(x);
    forall x | x in next && next[x].previous.Some? ensures above(next[x].previous.value) < above(x) {
      if x != id {
        assert LinkKept(records, x) && next[x].previous.value != id;
      }
    }
    assert RankedBy(next, above);
  }

  lemma {:induction false} NextKeeps(records: Records, a: Action, next: Records)
    requires Inv(records) && Next(records, a, next)
    ensures Inv(next)
  {
    if Refusal(records, a).None? {
      var rank: Id -> nat :| RankedBy(records, rank);
      var previous :|
        (a.Publish? ==> IsActive(records, records[a.id].document, previous)) && next == After(records, a, previous);
      if a.Publish? {
        PublishKeeps(records, a, previous, rank);
      } else {
        assert next == records[a.id := next[a.id]];
        SimpleKeeps(records, a.id, next[a.id], rank);
      }
    }
  }

  lemma {:induction false} PublishKeeps(records: Records, a: Action, previous: Option<Id>, rank: Id -> nat)
    requires OnePublished(records) && Evidenced(records) && Linked(records) && RankedBy(records, rank)
    requires a.Publish? && Refusal(records, a).None? && IsActive(records, records[a.id].document, previous)
    ensures Inv(After(records, a, previous))
  {
    SupersedingKeeps(records, a.id, previous, a.at, rank);
    if !a.stopped {
      var superseded := Superseding(records, previous, a.at);
      var r := Revised(records[a.id], Published, a.at).(previous := previous);
      PublishingKeeps(superseded, a.id, r, previous, rank);
    }
  }

  // Runs.

  ghost predicate Run(states: seq<Records>, actions: seq<Action>) {
    |states| == |actions| + 1 && states[0] == map[] &&
    forall i | 0 <= i < |actions| :: Next(states[i], actions[i], states[i + 1])
  }

  lemma {:induction false} RunKeeps(states: seq<Records>, actions: seq<Action>, i: nat)
    requires Run(states, actions) && i < |states|
    ensures Inv(states[i])
    decreases i
  {
    if i == 0 {
      assert RankedBy(states[0], (id: Id) => 0);
    } else {
      RunKeeps(states, actions, i - 1);
      NextKeeps(states[i - 1], actions[i - 1], states[i]);
    }
  }

  /** At most one version of a document is published. */
  lemma {:induction false} AtMostOnePublished(
    states: seq<Records>, actions: seq<Action>, i: nat, document: string, a: Id, b: Id)
    requires Run(states, actions) && i < |states| && Serves(states[i], document, a) && Serves(states[i], document, b)
    ensures a == b
  {
    RunKeeps(states, actions, i);
  }

  /** Records that are superseded or withdrawn stay exactly as they are. */
  lemma {:induction false} EndedRecordsStay(states: seq<Records>, actions: seq<Action>, i: nat, j: nat, id: Id)
    requires Run(states, actions) && i <= j < |states|
    requires id in states[i] && states[i][id].status in {Superseded, Withdrawn}
    ensures id in states[j] && states[j][id] == states[i][id]
    decreases j
  {
    if i < j {
      EndedRecordsStay(states, actions, i, j - 1, id);
      EndedStays(states[j - 1], actions[j - 1], states[j], id);
    }
  }

  lemma {:induction false} EndedStays(records: Records, a: Action, next: Records, id: Id)
    requires Next(records, a, next) && id in records && records[id].status in {Superseded, Withdrawn}
    ensures id in next && next[id] == records[id]
  {
  }

  /** The request published the record. */
  ghost predicate Publishes(records: Records, a: Action, id: Id) {
    a.Publish? && a.id == id && !a.stopped && Refusal(records, a).None?
  }

  predicate WasPublished(records: Records, id: Id) {
    id in records && records[id].status in {Published, Superseded, Withdrawn}
  }

  lemma {:induction false} PublishedStays(records: Records, a: Action, next: Records, id: Id)
    requires Next(records, a, next) && (WasPublished(records, id) || Publishes(records, a, id))
    ensures WasPublished(next, id)
  {
  }

  lemma {:induction false} PublishedRemains(states: seq<Records>, actions: seq<Action>, i: nat, j: nat, id: Id)
    requires Run(states, actions) && i < j < |states| && Publishes(states[i], actions[i], id)
    ensures WasPublished(states[j], id)
    decreases j
  {
    if i + 1 < j {
      PublishedRemains(states, actions, i, j - 1, id);
    }
    PublishedStays(states[j - 1], actions[j - 1], states[j], id);
  }

  /** A record is published at most once. */
  lemma {:induction false} PublishedOnce(states: seq<Records>, actions: seq<Action>, i: nat, j: nat, id: Id)
    requires Run(states, actions) && i < j < |actions| && Publishes(states[i], actions[i], id)
    ensures !Publishes(states[j], actions[j], id)
  {
    PublishedRemains(states, actions, i, j, id);
  }

  lemma {:induction false} StatusFrom(records: Records, a: Action, next: Records, id: Id)
    requires Next(records, a, next) && id in next && next[id].status in {Published, Superseded}
    ensures id in records && next[id].author == records[id].author
    ensures records[id].status in {Published, Superseded} || Publishes(records, a, id)
  {
  }

  /** Every published version has validation evidence and was published by someone other than its author. */
  lemma {:induction false} PublishedByAnother(states: seq<Records>, actions: seq<Action>, i: nat, id: Id)
    requires Run(states, actions) && i < |states|
    requires id in states[i] && states[i][id].status in {Published, Superseded}
    ensures states[i][id].evidence.Some?
    ensures exists k :: 0 <= k < i && Publishes(states[k], actions[k], id) && actions[k].actor != states[i][id].author
    decreases i
  {
    RunKeeps(states, actions, i);
    StatusFrom(states[i - 1], actions[i - 1], states[i], id);
    if states[i - 1][id].status in {Published, Superseded} {
      PublishedByAnother(states, actions, i - 1, id);
    }
  }

  // Links.

  /** Each record of the path names the next one as its previous version. */
  ghost predicate Path(records: Records, path: seq<Id>) {
    forall i | 0 <= i < |path| - 1 :: path[i] in records && records[path[i]].previous == Some(path[i + 1])
  }

  lemma {:induction false} PathDescends(records: Records, path: seq<Id>, rank: Id -> nat)
    requires RankedBy(records, rank) && Path(records, path) && |path| > 1
    ensures rank(path[|path| - 1]) < rank(path[0])
  {
    var n := |path| - 1;
    if n > 1 {
      PathDescends(records, path[..n], rank);
    }
    assert path[n - 1] in records;
  }

  /** Previous-version links never lead back, and lead to superseded versions of the same document. */
  lemma {:induction false} LinksAreAcyclic(states: seq<Records>, actions: seq<Action>, i: nat, path: seq<Id>)
    requires Run(states, actions) && i < |states| && Path(states[i], path) && |path| > 1
    ensures path[0] != path[|path| - 1]
    ensures forall k | 0 < k < |path| ::
      path[k] in states[i] && states[i][path[k]].status == Superseded &&
      states[i][path[k]].document == states[i][path[0]].document
  {
    RunKeeps(states, actions, i);
    var rank: Id -> nat :| RankedBy(states[i], rank);
    PathDescends(states[i], path, rank);
    LinkedAlong(states[i], path);
  }

  lemma {:induction false} LinkedAlong(records: Records, path: seq<Id>)
    requires Linked(records) && Path(records, path) && |path| > 1
    ensures forall k | 0 < k < |path| ::
      path[k] in records && records[path[k]].status == Superseded && records[path[k]].document == records[path[0]].document
  {
    var n := |path| - 1;
    assert LinkKept(records, path[n - 1]);
    if n > 1 {
      LinkedAlong(records, path[..n]);
    }
  }

  // When a document keeps a published version.

  ghost predicate Available(records: Records, document: string) {
    exists id :: Serves(records, document, id)
  }

  /** The request withdraws the published version, or stops after superseding it. */
  predicate Interrupts(records: Records, a: Action, document: string) {
    Refusal(records, a).None? && a.id in records && records[a.id].document == document &&
    ((a.Withdraw? && records[a.id].status == Published) || (a.Publish? && a.stopped))
  }

  /** A document loses its published version by a withdrawal or a stopped publication, and in no other way. */
  lemma {:induction false} AvailableUnlessInterrupted(records: Records, a: Action, next: Records, document: string)
    requires Inv(records) && Next(records, a, next) && Available(records, document)
    ensures Available(next, document) <==> !Interrupts(records, a, document)
  {
    var id :| Serves(records, document, id);
    if Refusal(records, a).None? {
      var previous :|
        (a.Publish? ==> IsActive(records, records[a.id].document, previous)) && next == After(records, a, previous);
      if a.Publish? && records[a.id].document == document {
        assert Serves(records, document, previous.value) && previous.value == id;
        var rank: Id -> nat :| RankedBy(records, rank);
        SupersedingKeeps(records, a.id, previous, a.at, rank);
        if !a.stopped {
          assert Serves(next, document, a.id);
        }
      } else if Interrupts(records, a, document) {
        assert Serves(records, document, a.id) && a.id == id;
        assert forall x :: Serves(next, document, x) ==> Serves(records, document, x);
      } else {
        StillServes(records, a, next, previous, document, id);
      }
    } else {
      assert Serves(next, document, id);
    }
  }

  lemma {:induction false} StillServes(
    records: Records, a: Action, next: Records, previous: Option<Id>, document: string, id: Id)
    requires Refusal(records, a).None? && Serves(records, document, id) && next == After(records, a, previous)
    requires a.Publish? ==> records[a.id].document != document && IsActive(records, records[a.id].document, previous)
    requires a.Withdraw? ==> a.id != id
    ensures Serves(next, document, id)
  {
  }

  // What publication does not promise.

  /** A version whose validation failed can be ingested again and then published, with the failure as its evidence. */
  lemma {:induction false} FailedValidationMayBePublished(
    records: Records, id: Id, outcomes: seq<bool>, actor: string, at: int)
    requires id in records && records[id].status == Draft && records[id].author != actor && !AllPassed(outcomes)
    ensures
      var failed := records[id := Validated(records[id], outcomes, at)];
      var indexed := failed[id := Ingested(failed[id], Some(1), at)];
      Next(records, Validate(id, outcomes, at), failed) && Next(failed, Ingest(id, Some(1), at), indexed) &&
      Refusal(indexed, Publish(id, actor, at, false)).None? && indexed[id].evidence == Some(false)
  {
    var failed := records[id := Validated(records[id], outcomes, at)];
    var indexed := failed[id := Ingested(failed[id], Some(1), at)];
    assert failed == After(records, Validate(id, outcomes, at), None);
    assert indexed == After(failed, Ingest(id, Some(1), at), None);
  }

  /** A draft without chunks can be validated and then published, still without chunks. */
  lemma {:induction false} UningestedMayBePublished(
    records: Records, id: Id, outcomes: seq<bool>, actor: string, at: int)
    requires id in records && records[id].status == Draft && records[id].author != actor && AllPassed(outcomes)
    requires records[id].chunks.None?
    ensures
      var validated := records[id := Validated(records[id], outcomes, at)];
      Next(records, Validate(id, outcomes, at), validated) && Publishes(validated, Publish(id, actor, at, false), id) &&
      validated[id].chunks.None?
  {
    assert records[id := Validated(records[id], outcomes, at)] == After(records, Validate(id, outcomes, at), None);
  }

  /** The request ingested the record's source. */
  ghost predicate Ingests(records: Records, a: Action, id: Id) {
    a.Ingest? && a.id == id && a.chunks.Some? && Refusal(records, a).None?
  }

  lemma {:induction false} ChunksFrom(records: Records, a: Action, next: Records, id: Id)
    requires Next(records, a, next) && id in next
    ensures next[id].chunks.Some? <==> (id in records && records[id].chunks.Some?) || Ingests(records, a, id)
    ensures next[id].status == Indexed ==> Ingests(records, a, id) || (id in records && records[id].status == Indexed)
    ensures id in records || (a.Create? && a.id == id)
  {
    if Refusal(records, a).None? {
      var previous :|
        (a.Publish? ==> IsActive(records, records[a.id].document, previous)) && next == After(records, a, previous);
    }
  }

  lemma {:induction false} IngestedStays(records: Records, a: Action, next: Records, id: Id)
    requires Next(records, a, next) && (id in records || Ingests(records, a, id))
    ensures id in next
  {
    if Refusal(records, a).None? {
      var previous :|
        (a.Publish? ==> IsActive(records, records[a.id].document, previous)) && next == After(records, a, previous);
    }
  }

  ghost predicate IngestedBefore(states: seq<Records>, actions: seq<Action>, i: nat, id: Id)
    requires i <= |actions| < |states|
  {
    exists k :: 0 <= k < i && Ingests(states[k], actions[k], id)
  }

  /** In every run a record has chunks exactly when an accepted request ingested it. */
  lemma {:induction false} ChunksExactlyWhenIngested(states: seq<Records>, actions: seq<Action>, i: nat, id: Id)
    requires Run(states, actions) && i < |states| && id in states[i]
    ensures states[i][id].chunks.Some? <==> IngestedBefore(states, actions, i, id)
    ensures states[i][id].status == Indexed ==> IngestedBefore(states, actions, i, id)
    decreases i
  {
    if i > 0 {
      ChunksFrom(states[i - 1], actions[i - 1], states[i], id);
      if id in states[i - 1] {
        ChunksExactlyWhenIngested(states, actions, i - 1, id);
      } else {
        NeverKnown(states, actions, i - 1, id);
      }
    }
  }

  /** Records stay, so one that is not there was never ingested. */
  lemma {:induction false} NeverKnown(states: seq<Records>, actions: seq<Action>, i: nat, id: Id)
    requires Run(states, actions) && i < |states| && id !in states[i]
    ensures !IngestedBefore(states, actions, i, id)
    decreases i
  {
    if i > 0 {
      if id in states[i - 1] || Ingests(states[i - 1], actions[i - 1], id) {
        IngestedStays(states[i - 1], actions[i - 1], states[i], id);
      }
      NeverKnown(states, actions, i - 1, id);
    }
  }

  /**
   A publication is of a version never ingested exactly when no earlier accepted request ingested it,
   and then the version awaited approval: one that is indexed has been ingested.
   */
  lemma {:induction false} PublishedUningestedExactly(states: seq<Records>, actions: seq<Action>, i: nat, id: Id)
    requires Run(states, actions) && i < |actions| && Publishes(states[i], actions[i], id)
    ensures id in states[i + 1] && states[i + 1][id].status == Published
    ensures states[i + 1][id].chunks.None? <==> !IngestedBefore(states, actions, i, id)
    ensures states[i + 1][id].chunks.None? ==> states[i][id].status == AwaitingApproval
  {
    PublishedStays(states[i], actions[i], states[i + 1], id);
    ChunksExactlyWhenIngested(states, actions, i, id);
    ChunksFrom(states[i], actions[i], states[i + 1], id);
    var previous :|
      IsActive(states[i], states[i][id].document, previous) && states[i + 1] == After(states[i], actions[i], previous);
  }

  /** Publication carries passing evidence unless it comes from an indexed version whose validation had failed. */
  lemma {:induction false} PublishedEvidence(records: Records, id: Id, actor: string, at: int, previous: Option<Id>)
    requires Inv(records) && Refusal(records, Publish(id, actor, at, false)).None? && previous != Some(id)
    ensures
      After(records, Publish(id, actor, at, false), previous)[id].evidence == Some(true) <==>
      !(records[id].status == Indexed && records[id].evidence == Some(false))
  {
    var evidence := records[id].evidence;
    assert evidence == Some(true) || evidence == Some(false) by {
      assert evidence.Some? && (evidence.value || !evidence.value);
    }
    assert After(records, Publish(id, actor, at, false), previous)[id].evidence == evidence;
  }
}
