/** The lifecycle of knowledge versions: administrators' requests, one after another, over the record store. */
module KnowledgeLifecycle {
  import opened Json

  type Id = string

  datatype Status = Draft | Indexed | AwaitingApproval | Published | Withdrawn | Superseded | Failed

  /** `evidence` says whether the recorded validation passed. */
  datatype Record = Record(
    document: string, version: string, author: string, status: Status, revision: nat, evidence: Option<bool>,
    chunks: Option<nat>, previous: Option<Id>, updatedAt: int)

  type Records = map<Id, Record>

  /** `stopped` publishing ends between superseding the old version and saving the new one. */
  datatype Action =
    | Create(id: Id, document: string, version: string, author: string, at: int)
    | Validate(id: Id, outcomes: seq<bool>, at: int)
    | Ingest(id: Id, chunks: Option<nat>, at: int)
    | Publish(id: Id, actor: string, at: int, stopped: bool)
    | Withdraw(id: Id, at: int)

  datatype Error = Exists | VersionExists | NotFound | InvalidTransition | ApproverConflict

  datatype Reply = Saved(record: Record) | Refused(error: Error) | Stopped

  // What a request does.

  predicate HasVersion(records: Records, document: string, version: string) {
    exists id | id in records :: records[id].document == document && records[id].version == version
  }

  predicate Serves(records: Records, document: string, id: Id) {
    id in records && records[id].document == document && records[id].status == Published
  }

  /** The published version of a document that was updated last. */
  ghost predicate IsActive(records: Records, document: string, active: Option<Id>) {
    match active
    case None => forall id :: !Serves(records, document, id)
    case Some(a) =>
      Serves(records, document, a) &&
      forall id | Serves(records, document, id) :: records[id].updatedAt <= records[a].updatedAt
  }

  function Revised(r: Record, status: Status, at: int): Record {
    r.(revision := r.revision + 1, status := status, updatedAt := at)
  }

  predicate AllPassed(outcomes: seq<bool>) {
    forall o | o in outcomes :: o
  }

  function Validated(r: Record, outcomes: seq<bool>, at: int): Record {
    Revised(r, if AllPassed(outcomes) then AwaitingApproval else Failed, at).(evidence := Some(AllPassed(outcomes)))
  }

  function Ingested(r: Record, chunks: Option<nat>, at: int): Record {
    if chunks.Some? then Revised(r, Indexed, at).(chunks := chunks) else Revised(r, Failed, at)
  }

  /** Why a request is refused, if it is. */
  function Refusal(records: Records, a: Action): Option<Error> {
    if a.Create? then
      if a.id in records then Some(Exists)
      else if HasVersion(records, a.document, a.version) then Some(VersionExists)
      else None
    else if a.id !in records then Some(NotFound)
    else
      var r := records[a.id];
      match a
      case Validate(_, _, _) =>
        if r.status in {Draft, Failed, Indexed} then None else Some(InvalidTransition)
      case Ingest(_, _, _) =>
        if r.status in {Draft, Failed} then None else Some(InvalidTransition)
      case Publish(_, actor, _, _) =>
        if r.status !in {Indexed, AwaitingApproval} || r.evidence.None? then Some(InvalidTransition)
        else if r.author == actor then Some(ApproverConflict)
        else None
      case Withdraw(_, _) =>
        if r.status in {Withdrawn, Superseded} then Some(InvalidTransition) else None
  }

  function Superseding(records: Records, previous: Option<Id>, at: int): Records {
    if previous.Some? && previous.value in records then
      records[previous.value := Revised(records[previous.value], Superseded, at)]
    else records
  }

  /** The records after an accepted request; `previous` is the active version when a publication starts. */
  function After(records: Records, a: Action, previous: Option<Id>): Records
    requires Refusal(records, a).None?
  {
    match a
    case Create(id, document, version, author, at) =>
      records[id := Record(document, version, author, Draft, 1, None, None, None, at)]
    case Validate(id, outcomes, at) => records[id := Validated(records[id], outcomes, at)]
    case Ingest(id, chunks, at) => records[id := Ingested(records[id], chunks, at)]
    case Publish(id, _, at, stopped) =>
      var superseded := Superseding(records, previous, at);
      if stopped then superseded
      else superseded[id := Revised(records[id], Published, at).(previous := previous)]
    case Withdraw(id, at) => records[id := Revised(records[id], Withdrawn, at)]
  }

  ghost predicate Next(records: Records, a: Action, next: Records) {
    if Refusal(records, a).Some? then next == records
    else
      exists previous ::
        (a.Publish? ==> IsActive(records, records[a.id].document, previous)) && next == After(records, a, previous)
  }

  class Administration {
    var records: Records

    constructor ()
      ensures records == map[]
    {
      records := map[];
    }

    method Save(id: Id, r: Record, expected: nat) returns (saved: bool)
      modifies this
      ensures saved <==> id in old(records) && old(records)[id].revision == expected
      ensures records == if saved then old(records)[id := r] else old(records)
    {
      saved := id in records && records[id].revision == expected;
      if saved {
        records := records[id := r];
      }
    }

    method Active(document: string) returns (active: Option<Id>)
      ensures IsActive(records, document, active)
    {
      active := None;
      var todo := records.Keys;
      while todo != {}
        invariant todo <= records.Keys
        invariant match active
          case None => forall id | id in records.Keys - todo :: !Serves(records, document, id)
          case Some(a) =>
            Serves(records, document, a) &&
            forall id | id in records.Keys - todo && Serves(records, document, id) ::
              records[id].updatedAt <= records[a].updatedAt
        decreases todo
      {
        var id :| id in todo;
        todo := todo - {id};
        if records[id].document == document && records[id].status == Published &&
          (active.None? || records[active.value].updatedAt < records[id].updatedAt)
        {
          active := Some(id);
        }
      }
    }

    method CreateSource(id: Id, document: string, version: string, author: string, at: int) returns (reply: Reply)
      modifies this
      ensures
        var a := Create(id, document, version, author, at);
        Next(old(records), a, records) && Answers(old(records), a, records, reply)
    {
      if id in records {
        return Refused(Exists);
      }
      if HasVersion(records, document, version) {
        return Refused(VersionExists);
      }
      var r := Record(document, version, author, Draft, 1, None, None, None, at);
      records := records[id := r];
      assert records == After(old(records), Create(id, document, version, author, at), None);
      return Saved(r);
    }

    method ValidateSource(id: Id, outcomes: seq<bool>, at: int) returns (reply: Reply)
      modifies this
      ensures
        var a := Validate(id, outcomes, at);
        Next(old(records), a, records) && Answers(old(records), a, records, reply)
    {
      if id !in records {
        return Refused(NotFound);
      }
      var current := records[id];
      if current.status !in {Draft, Failed, Indexed} {
        return Refused(InvalidTransition);
      }
      var passed := AllPassed(outcomes);
      var r := current.(
        revision := current.revision + 1, status := if passed then AwaitingApproval else Failed,
        evidence := Some(passed), updatedAt := at);
      var saved := Save(id, r, current.revision);
      assert records == After(old(records), Validate(id, outcomes, at), None);
      return Saved(r);
    }

    method IngestSource(id: Id, chunks: Option<nat>, at: int) returns (reply: Reply)
      modifies this
      ensures
        var a := Ingest(id, chunks, at);
        Next(old(records), a, records) && Answers(old(records), a, records, reply)
    {
      if id !in records {
        return Refused(NotFound);
      }
      var current := records[id];
      if current.status !in {Draft, Failed} {
        return Refused(InvalidTransition);
      }
      var r: Record;
      if chunks.None? {
        r := current.(revision := current.revision + 1, status := Failed, updatedAt := at);
      } else {
        r := current.(revision := current.revision + 1, status := Indexed, chunks := chunks, updatedAt := at);
      }
      var saved := Save(id, r, current.revision);
      assert records == After(old(records), Ingest(id, chunks, at), None);
      return Saved(r);
    }

    method PublishSource(id: Id, actor: string, at: int, stopped: bool) returns (reply: Reply)
      modifies this
      ensures
        var a := Publish(id, actor, at, stopped);
        Next(old(records), a, records) && Answers(old(records), a, records, reply)
    {
      if id !in records {
        return Refused(NotFound);
      }
      var current := records[id];
      if current.status !in {Indexed, AwaitingApproval} || current.evidence.None? {
        return Refused(InvalidTransition);
      }
      if current.author == actor {
        return Refused(ApproverConflict);
      }
      var previous := Active(current.document);
      if previous.Some? && previous.value != id {
        var p := records[previous.value];
        var superseded := Save(previous.value, p.(revision := p.revision + 1, status := Superseded, updatedAt := at), p.revision);
      }
      assert records == Superseding(old(records), previous, at);
      if stopped {
        assert records == After(old(records), Publish(id, actor, at, stopped), previous);
        return Stopped;
      }
      var r := current.(revision := current.revision + 1, status := Published, previous := previous, updatedAt := at);
      var saved := Save(id, r, current.revision);
      assert records == After(old(records), Publish(id, actor, at, stopped), previous);
      return Saved(r);
    }

    method WithdrawSource(id: Id, at: int) returns (reply: Reply)
      modifies this
      ensures
        var a := Withdraw(id, at);
        Next(old(records), a, records) && Answers(old(records), a, records, reply)
    {
      if id !in records {
        return Refused(NotFound);
      }
      var current := records[id];
      if current.status in {Withdrawn, Superseded} {
        return Refused(InvalidTransition);
      }
      var r := current.(revision := current.revision + 1, status := Withdrawn, updatedAt := at);
      var saved := Save(id, r, current.revision);
      assert records == After(old(records), Withdraw(id, at), None);
      return Saved(r);
    }
  }

  ghost predicate Answers(records: Records, a: Action, next: Records, reply: Reply) {
    match Refusal(records, a)
    case Some(e) => reply == Refused(e)
    case None => if a.Publish? && a.stopped then reply == Stopped else a.id in next && reply == Saved(next[a.id])
  }
}
