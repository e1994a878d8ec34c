/** Tool names and single-use tool continuations of the Google gateway. */
module GoogleTools {
  import opened Json
  import opened Text
  import Schemas = FieldUnion

  type CallId = nat

  /** What the provider wants back with the answer to one of its calls. */
  datatype Continuation = Continuation(providerId: Option<string>, signature: Option<string>)

  /** The continuations still open, and the supply of call identifiers. */
  datatype Store = Store(live: map<CallId, Continuation>, next: CallId)

  datatype Role = System | User | Assistant | Tool

  datatype ToolCall = ToolCall(callId: CallId, name: string, arguments: Json)

  /**
   `parts` is None when a content block cannot be sent; `result` is a tool message's content read
   as a JSON object, None when it is anything else.
   */
  datatype Message = Message(
    role: Role, parts: Option<seq<string>>, toolCalls: seq<ToolCall>, toolCallId: Option<CallId>, name: Option<string>,
    result: Option<Json>)

  datatype Request = Request(
    messages: seq<Message>, tools: seq<string>, required: Option<string>, schema: Option<Json>)

  /** `Broken` is a fault of Python's own, as on a malformed response schema. */
  datatype Error =
    Configuration | Unsupported | Unresponsive | Unreachable | Refused(status: nat) | Malformed | Broken

  datatype Result<T> = Ok(value: T) | Err(error: Error)

  datatype Part =
    | Words(text: string)
    | FunctionCall(name: string, arguments: Json, id: Option<string>, signature: Option<string>)
    | FunctionResponse(name: string, response: Json, id: Option<string>)

  datatype Payload = Payload(
    system: seq<string>, contents: seq<seq<Part>>, schema: Option<Json>, tools: seq<string>, allowed: Option<string>)

  /** One part of an answer: text, a function call with a well-typed name, arguments, id and signature, or neither. */
  datatype ReplyPart =
    | ReplyText(text: string)
    | ReplyCall(name: string, arguments: Json, id: Option<string>, signature: Option<string>)
    | ReplyOther

  /** `trailing` says that everything after the parts of the answer can be read. */
  datatype Reply =
    | TimedOut
    | NoConnection
    | Answer(status: nat, parts: Option<seq<ReplyPart>>, trailing: bool)

  datatype Response = Response(text: seq<string>, toolCalls: seq<ToolCall>)

  // Names.

  function ProviderName(name: string): string {
    Replace(name, '.', '_')
  }

  function CallNames(m: Message): set<string> {
    set c | c in m.toolCalls :: c.name
  }

  function DomainNames(q: Request): set<string> {
    (set t | t in q.tools) + (set m, n | m in q.messages && n in CallNames(m) :: n) +
    (set m | m in q.messages && m.name.Some? :: m.name.value) +
    if q.required.Some? then {q.required.value} else {}
  }

  function ProviderNames(names: set<string>): set<string> {
    set n | n in names :: ProviderName(n)
  }

  /** As many provider names as domain names. */
  predicate NamesAgree(names: set<string>) {
    |ProviderNames(names)| == |names|
  }

  predicate Distinguished(names: set<string>) {
    forall a, b | a in names && b in names && ProviderName(a) == ProviderName(b) :: a == b
  }

  lemma {:induction false} FewerProviderNames(names: set<string>)
    ensures |ProviderNames(names)| <= |names|
  {
    if names != {} {
      var n :| n in names;
      var rest := names - {n};
      FewerProviderNames(rest);
      assert ProviderNames(names) == ProviderNames(rest) + {ProviderName(n)};
    }
  }

  /** Counting the names finds every clash. */
  lemma {:induction false} NamesAgreeWhenDistinguished(names: set<string>)
    ensures NamesAgree(names) <==> Distinguished(names)
  {
    if names != {} {
      var n :| n in names;
      var rest := names - {n};
      NamesAgreeWhenDistinguished(rest);
      FewerProviderNames(rest);
      assert ProviderNames(names) == ProviderNames(rest) + {ProviderName(n)};
      if ProviderName(n) in ProviderNames(rest) {
        var m :| m in rest && ProviderName(m) == ProviderName(n);
        assert ProviderNames(names) == ProviderNames(rest);
      }
    }
  }

  /** The tool that a provider name stands for. */
  function Decode(tools: seq<string>, name: string): Option<string> {
    if tools == [] then None
    else
      var last := tools[|tools| - 1];
      if ProviderName(last) == name then Some(last) else Decode(tools[..|tools| - 1], name)
  }

  lemma {:induction false} DecodeFinds(tools: seq<string>, name: string)
    ensures Decode(tools, name).Some? ==> Decode(tools, name).value in tools && ProviderName(Decode(tools, name).value) == name
    ensures Decode(tools, name).None? ==> forall t | t in tools :: ProviderName(t) != name
  {
    if tools != [] {
      DecodeFinds(tools[..|tools| - 1], name);
    }
  }

  /** What was sent under a provider name comes back as itself, because the names were told apart. */
  lemma {:induction false} DecodeReturnsSent(q: Request, tool: string)
    requires NamesAgree(DomainNames(q)) && tool in q.tools
    ensures Decode(q.tools, ProviderName(tool)) == Some(tool)
  {
    NamesAgreeWhenDistinguished(DomainNames(q));
    DecodeFinds(q.tools, ProviderName(tool));
    var found := Decode(q.tools, ProviderName(tool)).value;
    assert found in DomainNames(q) && tool in DomainNames(q);
  }

  // The request.

  function FunctionCallPart(live: map<CallId, Continuation>, c: ToolCall): Result<Part> {
    if c.callId !in live then Err(Configuration)
    else Ok(FunctionCall(ProviderName(c.name), c.arguments, live[c.callId].providerId, live[c.callId].signature))
  }

  function FunctionCallParts(live: map<CallId, Continuation>, calls: seq<ToolCall>): Result<seq<Part>> {
    if calls == [] then Ok([])
    else
      match FunctionCallParts(live, calls[..|calls| - 1])
      case Err(e) => Err(e)
      case Ok(parts) =>
        match FunctionCallPart(live, calls[|calls| - 1])
        case Err(e) => Err(e)
        case Ok(part) => Ok(parts + [part])
  }

  function FunctionResponsePart(live: map<CallId, Continuation>, m: Message): Result<Part> {
    if m.name.None? || m.toolCallId.None? || m.result.None? || m.toolCalls != [] then Err(Configuration)
    else if m.toolCallId.value !in live then Err(Configuration)
    else Ok(FunctionResponse(ProviderName(m.name.value), m.result.value, live[m.toolCallId.value].providerId))
  }

  function Texts(texts: seq<string>): (r: seq<Part>)
    ensures |r| == |texts| && forall i | 0 <= i < |r| :: r[i] == Words(texts[i])
  {
    seq(|texts|, i requires 0 <= i < |texts| => Words(texts[i]))
  }

  /** The parts of a user's or the assistant's message. */
  function MessageParts(live: map<CallId, Continuation>, m: Message): Result<seq<Part>> {
    if m.toolCallId.Some? || m.name.Some? || m.parts.None? then Err(Unsupported)
    else if m.toolCalls != [] && m.role != Assistant then Err(Unsupported)
    else
      match FunctionCallParts(live, m.toolCalls)
      case Err(e) => Err(e)
      case Ok(calls) =>
        var parts := Texts(m.parts.value) + calls;
        if parts == [] then Err(Configuration) else Ok(parts)
  }

  datatype Draft = Draft(system: seq<string>, contents: seq<seq<Part>>)

  function AddMessage(live: map<CallId, Continuation>, d: Draft, m: Message): Result<Draft> {
    match m.role
    case System =>
      if m.toolCalls != [] || m.toolCallId.Some? || m.name.Some? || m.parts.None? then Err(Unsupported)
      else Ok(d.(system := d.system + m.parts.value))
    case Tool =>
      (match FunctionResponsePart(live, m)
       case Err(e) => Err(e)
       case Ok(part) => Ok(d.(contents := d.contents + [[part]])))
    case _ =>
      match MessageParts(live, m)
      case Err(e) => Err(e)
      case Ok(parts) => Ok(d.(contents := d.contents + [parts]))
  }

  function AddMessages(live: map<CallId, Continuation>, ms: seq<Message>): Result<Draft> {
    if ms == [] then Ok(Draft([], []))
    else
      match AddMessages(live, ms[..|ms| - 1])
      case Err(e) => Err(e)
      case Ok(d) => AddMessage(live, d, ms[|ms| - 1])
  }

  function ToolNames(tools: seq<string>): (r: seq<string>)
    ensures |r| == |tools| && forall i | 0 <= i < |r| :: r[i] == ProviderName(tools[i])
  {
    seq(|tools|, i requires 0 <= i < |tools| => ProviderName(tools[i]))
  }

  function BuildPayload(live: map<CallId, Continuation>, q: Request): Result<Payload> {
    if !NamesAgree(DomainNames(q)) then Err(Configuration)
    else
      match AddMessages(live, q.messages)
      case Err(e) => Err(e)
      case Ok(d) =>
        if d.contents == [] then Err(Configuration)
        else
          match Translated(q.schema)
          case Err(e) => Err(e)
          case Ok(schema) =>
            if q.tools == [] && q.required.Some? then Err(Configuration)
            else
              Ok(Payload(
                d.system, d.contents, schema, ToolNames(q.tools),
                if q.required.Some? then Some(ProviderName(q.required.value)) else None))
  }

  /** The response schema in the provider's terms. */
  function Translated(schema: Option<Json>): Result<Option<Json>> {
    match schema
    case None => Ok(None)
    case Some(s) =>
      match Schemas.GoogleProviderSchema(s)
      case Done(t) => Ok(Some(t))
      case Refused => Err(Configuration)
      case Fault => Err(Broken)
  }

  /** The calls a message answers or repeats. */
  function CallIds(m: Message): set<CallId> {
    (if m.toolCallId.Some? then {m.toolCallId.value} else {}) + set c | c in m.toolCalls :: c.callId
  }

  function Referenced(ms: seq<Message>): set<CallId> {
    if ms == [] then {} else Referenced(ms[..|ms| - 1]) + CallIds(ms[|ms| - 1])
  }

  // The answer.

  /** What has been read of an answer's parts; `ok` turns false at the first part that cannot be read. */
  datatype Progress = Progress(store: Store, text: seq<string>, calls: seq<ToolCall>, ok: bool)

  function ReadPart(tools: seq<string>, p: Progress, part: ReplyPart): Progress {
    if !p.ok then p
    else
      match part
      case ReplyText(text) => p.(text := p.text + [text])
      case ReplyOther => p.(ok := false)
      case ReplyCall(name, arguments, id, signature) =>
        if Decode(tools, name).None? then p.(ok := false)
        else
          var s := p.store;
          p.(store := Store(s.live[s.next := Continuation(id, signature)], s.next + 1),
             calls := p.calls + [ToolCall(s.next, Decode(tools, name).value, arguments)])
  }

  function ReadParts(tools: seq<string>, s: Store, parts: seq<ReplyPart>): Progress {
    if parts == [] then Progress(s, [], [], true)
    else ReadPart(tools, ReadParts(tools, s, parts[..|parts| - 1]), parts[|parts| - 1])
  }

  datatype Outcome = Failed(error: Error) | Done(response: Response)

  function StatusError(status: nat): Error {
    if status == 408 then Unresponsive else Refused(status)
  }

  /** The calls whose continuations the request uses up. */
  function Consumed(s: Store, q: Request): set<CallId> {
    Referenced(q.messages) * s.live.Keys
  }

  function Without(s: Store, gone: set<CallId>): Store {
    s.(live := s.live - gone)
  }

  /** One call of the gateway; `barred` is the capability or credential check that failed, if one did. */
  function Complete(s: Store, q: Request, barred: Option<Error>, reply: Reply): (Store, Outcome) {
    if barred.Some? then (s, Failed(barred.value))
    else
      var left := Without(s, Consumed(s, q));
      match BuildPayload(s.live, q)
      case Err(e) => (left, Failed(e))
      case Ok(_) =>
        match reply
        case TimedOut => (left, Failed(Unresponsive))
        case NoConnection => (left, Failed(Unreachable))
        case Answer(status, parts, trailing) =>
          if status >= 400 then (left, Failed(StatusError(status)))
          else if parts.None? then (left, Failed(Malformed))
          else
            var read := ReadParts(q.tools, left, parts.value);
            (read.store, if read.ok && trailing then Done(Response(read.text, read.calls)) else Failed(Malformed))
  }
}
