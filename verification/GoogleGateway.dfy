/** The Google gateway: one call after another over its map of open continuations. */
module GoogleGateway {
  import opened Json
  import opened GoogleTools

  class Gateway {
    var continuations: map<CallId, Continuation>
    var nextId: CallId

    constructor ()
      ensures State() == Store(map[], 0)
    {
      continuations, nextId := map[], 0;
    }

    ghost function State(): Store
      reads this
    {
      Store(continuations, nextId)
    }

    method ContinuationCallIds(messages: seq<Message>) returns (ids: set<CallId>)
      ensures ids == Consumed(State(), Request(messages, [], None, None))
    {
      ids := {};
      for i := 0 to |messages|
        invariant ids == Referenced(messages[..i]) * continuations.Keys
      {
        var m := messages[i];
        assert messages[..i + 1][..i] == messages[..i];
        if m.toolCallId.Some? && m.toolCallId.value in continuations {
          ids := ids + {m.toolCallId.value};
        }
        ids := ids + set c | c in m.toolCalls && c.callId in continuations :: c.callId;
      }
      assert messages[..|messages|] == messages;
    }

    method RequestPayload(q: Request) returns (r: Result<Payload>)
      ensures r == BuildPayload(continuations, q)
    {
      if !NamesAgree(DomainNames(q)) {
        return Err(Configuration);
      }
      var system: seq<string>, contents: seq<seq<Part>> := [], [];
      for i := 0 to |q.messages|
        invariant AddMessages(continuations, q.messages[..i]) == Ok(Draft(system, contents))
      {
        var m := q.messages[i];
        AddMessagesNext(continuations, q.messages, i);
        var added := AddMessage(continuations, Draft(system, contents), m);
        if added.Err? {
          AddMessagesFails(continuations, q.messages, i + 1);
          return Err(added.error);
        }
        system, contents := added.value.system, added.value.contents;
      }
      assert q.messages[..|q.messages|] == q.messages;
      if contents == [] {
        return Err(Configuration);
      }
      var schema := Translated(q.schema);
      if schema.Err? {
        return Err(schema.error);
      }
      var allowed: Option<string> := None;
      if q.required.Some? {
        if q.tools == [] {
          return Err(Configuration);
        }
        allowed := Some(ProviderName(q.required.value));
      }
      return Ok(Payload(system, contents, schema.value, ToolNames(q.tools), allowed));
    }

    method RegisterToolContinuation(id: Option<string>, signature: Option<string>) returns (callId: CallId)
      modifies this
      ensures callId == old(nextId) && nextId == callId + 1
      ensures continuations == old(continuations)[callId := Continuation(id, signature)]
    {
      callId := nextId;
      continuations, nextId := continuations[callId := Continuation(id, signature)], nextId + 1;
    }

    /** Reads the answer; the calls of a part that precedes a malformed one stay registered. */
    method NormaliseResponse(q: Request, parts: seq<ReplyPart>, trailing: bool) returns (outcome: Outcome)
      modifies this
      ensures
        var read := ReadParts(q.tools, old(State()), parts);
        State() == read.store &&
        outcome == if read.ok && trailing then Done(Response(read.text, read.calls)) else Failed(Malformed)
    {
      var text: seq<string>, calls: seq<ToolCall> := [], [];
      for i := 0 to |parts|
        invariant ReadParts(q.tools, old(State()), parts[..i]) == Progress(State(), text, calls, true)
      {
        ReadPartsNext(q.tools, old(State()), parts, i);
        match parts[i]
        case ReplyText(words) =>
          text := text + [words];
        case ReplyOther =>
          ReadPartsFails(q.tools, old(State()), parts, i + 1);
          return Failed(Malformed);
        case ReplyCall(name, arguments, id, signature) =>
          var tool := Decode(q.tools, name);
          if tool.None? {
            ReadPartsFails(q.tools, old(State()), parts, i + 1);
            return Failed(Malformed);
          }
          var callId := RegisterToolContinuation(id, signature);
          calls := calls + [ToolCall(callId, tool.value, arguments)];
      }
      assert parts[..|parts|] == parts;
      if !trailing {
        return Failed(Malformed);
      }
      return Done(Response(text, calls));
    }

    method Call(q: Request, barred: Option<Error>, reply: Reply) returns (outcome: Outcome)
      modifies this
      ensures (State(), outcome) == Complete(old(State()), q, barred, reply)
    {
      if barred.Some? {
        return Failed(barred.value);
      }
      var consumed := ContinuationCallIds(q.messages);
      var payload := RequestPayload(q);
      continuations := continuations - consumed;
      if payload.Err? {
        return Failed(payload.error);
      }
      match reply
      case TimedOut =>
        return Failed(Unresponsive);
      case NoConnection =>
        return Failed(Unreachable);
      case Answer(status, parts, trailing) =>
        if status >= 400 {
          return Failed(StatusError(status));
        }
        if parts.None? {
          return Failed(Malformed);
        }
        outcome := NormaliseResponse(q, parts.value, trailing);
    }
  }

  lemma {:induction false} AddMessagesNext(live: map<CallId, Continuation>, ms: seq<Message>, i: nat)
    requires i < |ms|
    ensures AddMessages(live, ms[..i]).Ok? ==>
      AddMessages(live, ms[..i + 1]) == AddMessage(live, AddMessages(live, ms[..i]).value, ms[i])
    ensures AddMessages(live, ms[..i]).Err? ==> AddMessages(live, ms[..i + 1]) == AddMessages(live, ms[..i])
  {
    assert ms[..i + 1][..i] == ms[..i];
  }

  lemma {:induction false} AddMessagesFails(live: map<CallId, Continuation>, ms: seq<Message>, i: nat)
    requires i <= |ms| && AddMessages(live, ms[..i]).Err?
    ensures AddMessages(live, ms) == AddMessages(live, ms[..i])
    decreases |ms| - i
  {
    if i < |ms| {
      AddMessagesNext(live, ms, i);
      AddMessagesFails(live, ms, i + 1);
    } else {
      assert ms[..i] == ms;
    }
  }

  lemma {:induction false} ReadPartsNext(tools: seq<string>, s: Store, parts: seq<ReplyPart>, i: nat)
    requires i < |parts|
    ensures ReadParts(tools, s, parts[..i + 1]) == ReadPart(tools, ReadParts(tools, s, parts[..i]), parts[i])
  {
    assert parts[..i + 1][..i] == parts[..i];
  }

  lemma {:induction false} ReadPartsFails(tools: seq<string>, s: Store, parts: seq<ReplyPart>, i: nat)
    requires i <= |parts| && !ReadParts(tools, s, parts[..i]).ok
    ensures ReadParts(tools, s, parts) == ReadParts(tools, s, parts[..i])
    decreases |parts| - i
  {
    if i < |parts| {
      ReadPartsNext(tools, s, parts, i);
      ReadPartsFails(tools, s, parts, i + 1);
    } else {
      assert parts[..i] == parts;
    }
  }

  // Runs.

  /** One call: what was asked, whether a check barred it, and what the provider answered. */
  datatype Exchange = Exchange(request: Request, barred: Option<Error>, reply: Reply)

  ghost predicate Sane(s: Store) {
    forall id | id in s.live :: id < s.next
  }

  ghost predicate Run(stores: seq<Store>, calls: seq<Exchange>) {
    |stores| == |calls| + 1 && Sane(stores[0]) &&
    forall i | 0 <= i < |calls| ::
      stores[i + 1] == Complete(stores[i], calls[i].request, calls[i].barred, calls[i].reply).0
  }

  ghost predicate Passes(stores: seq<Store>, calls: seq<Exchange>, i: nat) {
    i < |calls| <= |stores| && calls[i].barred.None?
  }

  /** The provider received the call's request. */
  ghost predicate Sent(stores: seq<Store>, calls: seq<Exchange>, i: nat) {
    Passes(stores, calls, i) && BuildPayload(stores[i].live, calls[i].request).Ok?
  }

  /** An answer opens continuations under new identifiers only and leaves the others alone. */
  lemma {:induction false} ReadPartsAdds(tools: seq<string>, s: Store, parts: seq<ReplyPart>)
    requires Sane(s)
    ensures
      var p := ReadParts(tools, s, parts);
      Sane(p.store) && s.next <= p.store.next && p.store.next == s.next + |p.calls| &&
      (forall id | id in s.live :: id in p.store.live && p.store.live[id] == s.live[id]) &&
      (forall id: CallId :: id in p.store.live <==> id in s.live || s.next <= id < p.store.next) &&
      (forall k | 0 <= k < |p.calls| :: p.calls[k].callId == s.next + k)
  {
    if parts != [] {
      ReadPartsAdds(tools, s, parts[..|parts| - 1]);
    }
  }

  /** A later store: continuations opened before `s` are in it as they were, or not at all. */
  ghost predicate Follows(s: Store, t: Store) {
    Sane(t) && s.next <= t.next && forall id | id in t.live && id < s.next :: id in s.live && t.live[id] == s.live[id]
  }

  lemma {:induction false} FollowsOn(a: Store, b: Store, c: Store)
    requires Follows(a, b) && Follows(b, c)
    ensures Follows(a, c)
  {
  }

  lemma {:induction false} ReadFollows(tools: seq<string>, s: Store, gone: set<CallId>, parts: seq<ReplyPart>)
    requires Sane(s)
    ensures
      var t := ReadParts(tools, Without(s, gone), parts).store;
      Follows(s, t) && forall id | id in gone && id < s.next :: id !in t.live
  {
    ReadPartsAdds(tools, Without(s, gone), parts);
  }

  /** Every outcome leaves the store without what was used up, or that store with an answer's calls added. */
  lemma {:induction false} CallLeaves(s: Store, q: Request, barred: Option<Error>, reply: Reply)
    ensures
      var t, left := Complete(s, q, barred, reply).0, Without(s, Consumed(s, q));
      if barred.Some? then t == s
      else t == left || (reply.Answer? && reply.parts.Some? && t == ReadParts(q.tools, left, reply.parts.value).store)
  {
  }

  lemma {:induction false} CallKeeps(s: Store, q: Request, barred: Option<Error>, reply: Reply)
    requires Sane(s)
    ensures
      var t := Complete(s, q, barred, reply).0;
      Follows(s, t) && (barred.None? ==> forall id | id in Referenced(q.messages) && id < s.next :: id !in t.live)
  {
    CallLeaves(s, q, barred, reply);
    var t := Complete(s, q, barred, reply).0;
    if barred.None? {
      if t != Without(s, Consumed(s, q)) {
        ReadFollows(q.tools, s, Consumed(s, q), reply.parts.value);
      }
      forall id | id in Referenced(q.messages) && id < s.next ensures id !in t.live {
        assert id in s.live ==> id in Consumed(s, q);
      }
    }
  }

  lemma {:induction false} RunKeeps(stores: seq<Store>, calls: seq<Exchange>, i: nat, j: nat)
    requires Run(stores, calls) && i <= j < |stores|
    ensures Sane(stores[i]) && Follows(stores[i], stores[j])
    decreases j, i
  {
    if i < j {
      RunKeeps(stores, calls, i, j - 1);
      CallKeeps(stores[j - 1], calls[j - 1].request, calls[j - 1].barred, calls[j - 1].reply);
      FollowsOn(stores[i], stores[j - 1], stores[j]);
    } else if 0 < i {
      RunKeeps(stores, calls, i - 1, i);
    }
  }

  /** Whatever became of a call that passed its checks, the continuations it named are gone for good. */
  lemma {:induction false} SingleUse(stores: seq<Store>, calls: seq<Exchange>, i: nat, j: nat, id: CallId)
    requires Run(stores, calls) && Passes(stores, calls, i) && i < j < |stores|
    requires id in Referenced(calls[i].request.messages) && id in stores[i].live
    ensures id !in stores[j].live
  {
    RunKeeps(stores, calls, i, i);
    CallKeeps(stores[i], calls[i].request, calls[i].barred, calls[i].reply);
    RunKeeps(stores, calls, i + 1, j);
  }

  // What is sent.

  lemma {:induction false} FunctionCallPartsHave(live: map<CallId, Continuation>, calls: seq<ToolCall>, c: ToolCall)
    requires FunctionCallParts(live, calls).Ok? && c in calls
    ensures FunctionCallPart(live, c).Ok? && FunctionCallPart(live, c).value in FunctionCallParts(live, calls).value
  {
    if c != calls[|calls| - 1] {
      FunctionCallPartsHave(live, calls[..|calls| - 1], c);
    }
  }

  /** What a message that repeats or answers a call contributes to the payload. */
  ghost predicate Echo(live: map<CallId, Continuation>, m: Message, id: CallId, part: Part) {
    if m.role == Tool then m.toolCallId == Some(id) && FunctionResponsePart(live, m) == Ok(part)
    else exists c :: c in m.toolCalls && c.callId == id && FunctionCallPart(live, c) == Ok(part)
  }

  ghost predicate Carries(contents: seq<seq<Part>>, part: Part) {
    exists k :: 0 <= k < |contents| && part in contents[k]
  }

  lemma {:induction false} AddedMessageCarries(
    live: map<CallId, Continuation>, d: Draft, m: Message, id: CallId, part: Part)
    requires AddMessage(live, d, m).Ok? && Echo(live, m, id, part)
    ensures id in live && Carries(AddMessage(live, d, m).value.contents, part)
  {
    var contents := AddMessage(live, d, m).value.contents;
    if m.role != Tool {
      var c :| c in m.toolCalls && c.callId == id && FunctionCallPart(live, c) == Ok(part);
      FunctionCallPartsHave(live, m.toolCalls, c);
    }
    assert part in contents[|contents| - 1];
  }

  lemma {:induction false} AddedMessagesCarry(
    live: map<CallId, Continuation>, ms: seq<Message>, m: Message, id: CallId, part: Part)
    requires AddMessages(live, ms).Ok? && m in ms && Echo(live, m, id, part)
    ensures Carries(AddMessages(live, ms).value.contents, part)
  {
    var n := |ms| - 1;
    var before := AddMessages(live, ms[..n]).value;
    if m == ms[n] {
      AddedMessageCarries(live, before, m, id, part);
    } else {
      AddedMessagesCarry(live, ms[..n], m, id, part);
      var k :| 0 <= k < |before.contents| && part in before.contents[k];
      assert AddMessages(live, ms).value.contents[k] == before.contents[k];
    }
  }

  lemma {:induction false} AddedMessageIsLive(live: map<CallId, Continuation>, d: Draft, m: Message, id: CallId)
    requires AddMessage(live, d, m).Ok? && id in CallIds(m)
    ensures id in live && exists part :: Echo(live, m, id, part)
  {
    if m.role == Tool {
      assert Echo(live, m, id, FunctionResponsePart(live, m).value);
    } else {
      var c :| c in m.toolCalls && c.callId == id;
      FunctionCallPartsHave(live, m.toolCalls, c);
      assert Echo(live, m, id, FunctionCallPart(live, c).value);
    }
  }

  /** A payload is built only when every call it names is open. */
  lemma {:induction false} AddedMessagesAreLive(live: map<CallId, Continuation>, ms: seq<Message>, id: CallId)
    requires AddMessages(live, ms).Ok? && id in Referenced(ms)
    ensures id in live
  {
    var n := |ms| - 1;
    if id in CallIds(ms[n]) {
      AddedMessageIsLive(live, AddMessages(live, ms[..n]).value, ms[n], id);
    } else {
      AddedMessagesAreLive(live, ms[..n], id);
    }
  }

  /** No continuation is sent to the provider by two calls. */
  lemma {:induction false} SentOnce(stores: seq<Store>, calls: seq<Exchange>, i: nat, j: nat, id: CallId)
    requires Run(stores, calls) && i < j && Sent(stores, calls, i) && Sent(stores, calls, j)
    requires id in Referenced(calls[i].request.messages)
    ensures id !in Referenced(calls[j].request.messages)
  {
    AddedMessagesAreLive(stores[i].live, calls[i].request.messages, id);
    SingleUse(stores, calls, i, j, id);
    if id in Referenced(calls[j].request.messages) {
      AddedMessagesAreLive(stores[j].live, calls[j].request.messages, id);
    }
  }

  // What is opened.

  function CallParts(parts: seq<ReplyPart>): seq<ReplyPart> {
    if parts == [] then []
    else
      var last := parts[|parts| - 1];
      CallParts(parts[..|parts| - 1]) + if last.ReplyCall? then [last] else []
  }

  /** The call handed to the caller, its part of the answer, and the continuation opened for it. */
  ghost predicate Opens(tools: seq<string>, s: Store, c: ToolCall, part: ReplyPart) {
    part.ReplyCall? && Decode(tools, part.name) == Some(c.name) && c.arguments == part.arguments &&
    c.callId in s.live && s.live[c.callId] == Continuation(part.id, part.signature)
  }

  lemma {:induction false} ReadPartsOpen(tools: seq<string>, s: Store, parts: seq<ReplyPart>)
    requires Sane(s) && ReadParts(tools, s, parts).ok
    ensures
      var p := ReadParts(tools, s, parts);
      |p.calls| == |CallParts(parts)| && forall k | 0 <= k < |p.calls| :: Opens(tools, p.store, p.calls[k], CallParts(parts)[k])
  {
    if parts != [] {
      var most := parts[..|parts| - 1];
      ReadPartsOpen(tools, s, most);
      ReadPartsAdds(tools, s, most);
    }
  }

  /** A successful call opens one continuation for each function call of the answer, all new, and no other. */
  lemma {:induction false} SuccessOpensExactly(s: Store, q: Request, barred: Option<Error>, reply: Reply)
    requires Sane(s) && Complete(s, q, barred, reply).1.Done?
    ensures
      var (t, outcome) := Complete(s, q, barred, reply);
      var calls := outcome.response.toolCalls;
      reply.Answer? && reply.parts.Some? && |calls| == |CallParts(reply.parts.value)| &&
      (forall k | 0 <= k < |calls| ::
         calls[k].callId == s.next + k && Opens(q.tools, t, calls[k], CallParts(reply.parts.value)[k])) &&
      forall id :: id in t.live <==>
        (id in s.live && id !in Referenced(q.messages)) || s.next <= id < s.next + |calls|
  {
    var left := Without(s, Consumed(s, q));
    ReadPartsAdds(q.tools, left, reply.parts.value);
    ReadPartsOpen(q.tools, left, reply.parts.value);
  }

  /** A call that fails may still open continuations: exactly when its answer holds a readable call before its fault. */
  lemma {:induction false} FailureOpens(s: Store, q: Request, barred: Option<Error>, reply: Reply)
    requires Sane(s) && Complete(s, q, barred, reply).1.Failed? && barred.None?
    ensures
      var t := Complete(s, q, barred, reply).0;
      t != Without(s, Consumed(s, q)) <==>
      BuildPayload(s.live, q).Ok? && reply.Answer? && reply.status < 400 && reply.parts.Some? &&
      exists k :: 0 <= k < |reply.parts.value| && ReadableTo(q.tools, reply.parts.value, k) && reply.parts.value[k].ReplyCall?
  {
    if BuildPayload(s.live, q).Ok? && reply.Answer? && reply.status < 400 && reply.parts.Some? {
      var left := Without(s, Consumed(s, q));
      ReadPartsAdds(q.tools, left, reply.parts.value);
      ReadPartsOpened(q.tools, left, reply.parts.value);
    }
  }

  predicate Readable(tools: seq<string>, part: ReplyPart) {
    part.ReplyText? || (part.ReplyCall? && Decode(tools, part.name).Some?)
  }

  predicate ReadableTo(tools: seq<string>, parts: seq<ReplyPart>, k: nat)
    requires k < |parts|
  {
    forall j | 0 <= j <= k :: Readable(tools, parts[j])
  }

  lemma {:induction false} ReadPartsOk(tools: seq<string>, s: Store, parts: seq<ReplyPart>)
    ensures ReadParts(tools, s, parts).ok <==> forall j | 0 <= j < |parts| :: Readable(tools, parts[j])
  {
    if parts != [] {
      ReadPartsOk(tools, s, parts[..|parts| - 1]);
    }
  }

  lemma {:induction false} ReadPartsOpened(tools: seq<string>, s: Store, parts: seq<ReplyPart>)
    requires Sane(s)
    ensures ReadParts(tools, s, parts).store != s <==>
      exists k :: 0 <= k < |parts| && ReadableTo(tools, parts, k) && parts[k].ReplyCall?
  {
    if parts != [] {
      var n := |parts| - 1;
      var most := parts[..n];
      ReadPartsOpened(tools, s, most);
      ReadPartsOk(tools, s, most);
      ReadPartsAdds(tools, s, most);
      if k :| 0 <= k < |most| && ReadableTo(tools, most, k) && most[k].ReplyCall? {
        assert ReadableTo(tools, parts, k) && parts[k].ReplyCall?;
      }
      if k :| 0 <= k < |parts| && ReadableTo(tools, parts, k) && parts[k].ReplyCall? {
        if k < n {
          assert ReadableTo(tools, most, k) && most[k].ReplyCall?;
        } else {
          assert forall j | 0 <= j < |most| :: most[j] == parts[j];
        }
      }
      if ReadParts(tools, s, most).ok && Readable(tools, parts[n]) {
        assert ReadableTo(tools, parts, n);
      }
    }
  }

  // What is echoed.

  function OutcomeOf(s: Store, x: Exchange): Outcome {
    Complete(s, x.request, x.barred, x.reply).1
  }

  /** The call is the `k`-th that a successful exchange handed out, for this part of the answer. */
  ghost predicate HandedOut(s: Store, x: Exchange, k: nat, c: ToolCall, part: ReplyPart) {
    OutcomeOf(s, x).Done? && x.reply.Answer? && x.reply.parts.Some? && part.ReplyCall? &&
    Nth(OutcomeOf(s, x).response.toolCalls, k, c) && Nth(CallParts(x.reply.parts.value), k, part)
  }

  ghost predicate Nth<T>(s: seq<T>, k: nat, x: T) {
    k < |s| && s[k] == x
  }

  /** The echo of a call, as the provider wants it: its own identifier and, with a repeated call, its signature. */
  predicate Returns(part: ReplyPart, m: Message, echo: Part)
    requires part.ReplyCall?
  {
    match echo
    case FunctionCall(_, _, id, signature) => m.role != Tool && id == part.id && signature == part.signature
    case FunctionResponse(_, _, id) => m.role == Tool && id == part.id
    case Words(_) => false
  }

  function ContentsOf(s: Store, q: Request): seq<seq<Part>> {
    if BuildPayload(s.live, q).Ok? then BuildPayload(s.live, q).value.contents else []
  }

  lemma {:induction false} HandedOutIsOpen(s: Store, x: Exchange, k: nat, c: ToolCall, part: ReplyPart)
    requires Sane(s) && HandedOut(s, x, k, c, part)
    ensures Opens(x.request.tools, Complete(s, x.request, x.barred, x.reply).0, c, part)
  {
    SuccessOpensExactly(s, x.request, x.barred, x.reply);
  }

  lemma {:induction false} NamedIsLive(live: map<CallId, Continuation>, ms: seq<Message>, m: Message, id: CallId)
    requires AddMessages(live, ms).Ok? && m in ms && id in CallIds(m)
    ensures id in live && exists part :: Echo(live, m, id, part)
  {
    var n := |ms| - 1;
    if m == ms[n] {
      AddedMessageIsLive(live, AddMessages(live, ms[..n]).value, m, id);
    } else {
      NamedIsLive(live, ms[..n], m, id);
    }
  }

  lemma {:induction false} SentEchoes(s: Store, q: Request, m: Message, id: CallId)
    requires BuildPayload(s.live, q).Ok? && m in q.messages && id in CallIds(m)
    ensures id in s.live && exists echo :: Echo(s.live, m, id, echo) && Carries(ContentsOf(s, q), echo)
  {
    NamedIsLive(s.live, q.messages, m, id);
    var echo :| Echo(s.live, m, id, echo);
    AddedMessagesCarry(s.live, q.messages, m, id, echo);
  }

  /** A later call that repeats or answers a handed-out call, and is sent, carries what the provider wants back. */
  lemma {:induction false} EchoesCarryWhatWasOpened(
    stores: seq<Store>, calls: seq<Exchange>, i: nat, k: nat, c: ToolCall, part: ReplyPart, j: nat, m: Message)
    requires Run(stores, calls) && i < j && Sent(stores, calls, j) && HandedOut(stores[i], calls[i], k, c, part)
    requires m in calls[j].request.messages && c.callId in CallIds(m)
    ensures exists echo :: Carries(ContentsOf(stores[j], calls[j].request), echo) && Returns(part, m, echo)
  {
    RunKeeps(stores, calls, i, i);
    HandedOutIsOpen(stores[i], calls[i], k, c, part);
    RunKeeps(stores, calls, i + 1, j);
    RunKeeps(stores, calls, i + 1, i + 1);
    SentEchoes(stores[j], calls[j].request, m, c.callId);
    var echo :| Echo(stores[j].live, m, c.callId, echo) && Carries(ContentsOf(stores[j], calls[j].request), echo);
    EchoReturns(stores[j].live, m, c.callId, echo, part);
  }

  lemma {:induction false} EchoReturns(
    live: map<CallId, Continuation>, m: Message, id: CallId, echo: Part, part: ReplyPart)
    requires Echo(live, m, id, echo) && part.ReplyCall? && id in live
    requires live[id] == Continuation(part.id, part.signature)
    ensures Returns(part, m, echo)
  {
  }

  /** The name handed out is the one tool that was sent under the provider's name, and is sent back under it. */
  lemma {:induction false} NamesComeBack(s: Store, x: Exchange, k: nat, c: ToolCall, part: ReplyPart)
    requires Sane(s) && HandedOut(s, x, k, c, part)
    ensures c.name in x.request.tools && ProviderName(c.name) == part.name
    ensures forall tool | tool in x.request.tools && ProviderName(tool) == part.name :: tool == c.name
  {
    HandedOutIsOpen(s, x, k, c, part);
    DecodeFinds(x.request.tools, part.name);
    forall tool | tool in x.request.tools && ProviderName(tool) == part.name ensures tool == c.name {
      DecodeReturnsSent(x.request, tool);
    }
  }
}
