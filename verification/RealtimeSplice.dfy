/**
 The event log, the dispatcher's thread, one subscription's bounded queue and the stream that reads
 it, interleaved. Emptying the queue takes one step an item, as the queue has no operation to clear it.
 */
module RealtimeSplice {
  import opened Json
  import opened RealtimeEvents
  import opened RealtimeStream

  datatype Phase = Subscribed | Replaying(pending: seq<Delivery>) | Live | Refused

  /**
   `attached` says that the dispatcher publishes to the queue, `latest` is the last cursor offered to
   it, `draining` that the dispatcher is emptying it, `handled` every delivery the stream has read.
   */
  datatype State = State(
    log: seq<Event>, published: nat, attached: bool, latest: Option<int>, queue: seq<Delivery>, draining: bool,
    phase: Phase, out: Stream, handled: seq<Delivery>)

  /** `floor` is the cursor the client names or, without one, the last event published before it subscribed. */
  datatype Config = Config(capacity: nat, limit: nat, cursor: Option<int>, floor: Option<int>)

  datatype Label =
    | Append(e: Event) | Publish | PublishInRecovery | RequireResync | Drop | PutResync | Detach
    | Replay | SendReplayed | GoLive | Take

  ghost predicate Init(c: Config, s: State) {
    c.capacity > 0 && Ordered(s.log) && s.published <= |s.log| && s.latest == None && !s.draining &&
    s.phase == Subscribed && s.out == Opened(c.cursor) && s.handled == [] &&
    s.queue == (if s.attached then [] else [Resync]) &&
    c.floor == if c.cursor.Some? then c.cursor else if s.published == 0 then None else Some(s.log[s.published - 1].cursor)
  }

  // The steps.

  function Offer(c: Config, s: State, e: Event): State {
    if !s.attached || !e.permitted || !After(e.cursor, s.latest) then s
    else if |s.queue| < c.capacity then s.(latest := Some(e.cursor), queue := s.queue + [Change(e.cursor)])
    else s.(latest := Some(e.cursor), draining := true)
  }

  function Changes(cursors: seq<int>): (r: seq<Delivery>)
    ensures |r| == |cursors| && forall i | 0 <= i < |r| :: r[i] == Change(cursors[i])
  {
    seq(|cursors|, i requires 0 <= i < |cursors| => Change(cursors[i]))
  }

  function EventsAfter(log: seq<Event>, last: Option<int>): seq<Event> {
    if log == [] then []
    else
      var e := log[|log| - 1];
      EventsAfter(log[..|log| - 1], last) + if After(e.cursor, last) then [e] else []
  }

  /** Nothing without a cursor; otherwise the first `limit` events after it that the scope permits. */
  function Replayed(c: Config, log: seq<Event>): seq<Delivery> {
    if c.cursor.None? then []
    else
      var later := EventsAfter(log, c.cursor);
      if |later| <= c.limit then Changes(Owed(later, None)) else Changes(Owed(later[..c.limit], None)) + [Resync]
  }

  predicate ValidCursor(log: seq<Event>, cursor: Option<int>) {
    cursor.None? || exists i | 0 <= i < |log| :: log[i].cursor == cursor.value
  }

  function Read(s: State, d: Delivery): State {
    s.(out := Handle(s.out, d), handled := s.handled + [d])
  }

  /** The queue may answer while the dispatcher empties it; `RequireResync` comes when its recovery begins. */
  ghost predicate Next(c: Config, s: State, l: Label, t: State) {
    match l
    case Append(e) => (forall x | x in s.log :: x.cursor < e.cursor) && t == s.(log := s.log + [e])
    case Publish =>
      !s.draining && s.published < |s.log| &&
      t == Offer(c, s.(published := s.published + 1), s.log[s.published])
    case PublishInRecovery =>
      !s.draining && s.published < |s.log| && (s.attached ==> Doomed(s)) && t == s.(published := s.published + 1)
    case RequireResync => !s.draining && s.attached && t == s.(draining := true)
    case Drop => s.draining && s.queue != [] && t == s.(queue := s.queue[1..])
    case PutResync => s.draining && s.queue == [] && t == s.(queue := [Resync], draining := false)
    case Detach => !s.draining && t == s.(attached := false)
    case Replay =>
      s.phase == Subscribed &&
      t == s.(phase := if ValidCursor(s.log, c.cursor) then Replaying(Replayed(c, s.log)) else Refused)
    case SendReplayed =>
      !s.out.ended && s.phase.Replaying? && s.phase.pending != [] &&
      t == Read(s.(phase := Replaying(s.phase.pending[1..])), s.phase.pending[0])
    case GoLive => !s.out.ended && s.phase == Replaying([]) && t == s.(phase := Live)
    case Take =>
      !s.out.ended && s.phase == Live && s.queue != [] && t == Read(s.(queue := s.queue[1..]), s.queue[0])
  }

  function Pending(s: State): seq<Delivery> {
    if s.phase.Replaying? then s.phase.pending else []
  }

  /** A resynchronisation has been sent, or is on its way to the client. */
  ghost predicate Doomed(s: State) {
    s.out.ended || s.draining || Resync in s.queue || Resync in Pending(s)
  }

  // Runs.

  ghost predicate Run(c: Config, states: seq<State>, labels: seq<Label>) {
    |states| == |labels| + 1 && Init(c, states[0]) &&
    forall i | 0 <= i < |labels| :: Next(c, states[i], labels[i], states[i + 1])
  }

  /** The stream never reads the queue while the dispatcher is emptying it. */
  ghost predicate Calm(states: seq<State>, labels: seq<Label>)
    requires |states| == |labels| + 1
  {
    forall i | 0 <= i < |labels| :: labels[i] == Take ==> !states[i].draining
  }

  // What every step keeps.

  /** The cursors of the deliveries that come after `last`. */
  function Fresh(ds: seq<Delivery>, last: Option<int>): seq<int> {
    if ds == [] then []
    else (if ds[0].Change? && After(ds[0].cursor, last) then [ds[0].cursor] else []) + Fresh(ds[1..], last)
  }

  /** The cursors sent, or read from the log to be sent. */
  function Taken(s: State): seq<int> {
    s.out.sent + Fresh(Pending(s), None)
  }

  /** Where the stream will stand once it has sent what it replays. */
  function Mark(c: Config, s: State): Option<int> {
    if Taken(s) == [] then c.cursor else Some(Taken(s)[|Taken(s)| - 1])
  }

  function Ahead(c: Config, s: State): seq<int> {
    Fresh(s.queue, Mark(c, s))
  }

  function Unpublished(c: Config, s: State): seq<int>
    requires s.published <= |s.log|
  {
    Owed(s.log[s.published..], Mark(c, s))
  }

  predicate Spliced(s: State) {
    s.phase.Replaying? || s.phase.Live?
  }

  ghost predicate LogKept(c: Config, s: State) {
    c.capacity > 0 && Ordered(s.log) && s.published <= |s.log| &&
    (c.cursor.None? ==> forall e | e in s.log[s.published..] :: After(e.cursor, c.floor)) &&
    (c.cursor.None? && c.floor.Some? ==> exists i | 0 <= i < |s.log| :: s.log[i].cursor == c.floor.value) &&
    (c.cursor.Some? ==> c.floor == c.cursor)
  }

  ghost predicate Before(s: State, cursor: int)
    requires s.published <= |s.log|
  {
    forall e | e in s.log[s.published..] :: cursor < e.cursor
  }

  /** The queue holds recorded, permitted events in order, none of them still to be published. */
  ghost predicate QueueKept(c: Config, s: State)
    requires s.published <= |s.log|
  {
    Increasing(Fresh(s.queue, None)) &&
    (forall q | q in Fresh(s.queue, None) ::
       Recorded(s.log, q) && Before(s, q) && (c.cursor.None? ==> After(q, c.floor)) &&
       s.latest.Some? && q <= s.latest.value) &&
    (s.latest.Some? ==> Recorded(s.log, s.latest.value) && Before(s, s.latest.value))
  }

  /** A resynchronisation in the queue is the next thing the stream reads from it. */
  ghost predicate HeadKept(s: State) {
    (Resync in s.queue && !s.draining && !s.out.ended ==> s.queue[0] == Resync) &&
    (s.phase == Live ==> Pending(s) == [])
  }

  ghost predicate Genuine(c: Config, log: seq<Event>, cursors: seq<int>) {
    Increasing(cursors) && forall x | x in cursors :: Recorded(log, x) && After(x, c.floor)
  }

  predicate LastKept(c: Config, out: Stream) {
    out.last == if out.sent == [] then c.cursor else Some(out.sent[|out.sent| - 1])
  }

  ghost predicate SentKept(c: Config, s: State) {
    Genuine(c, s.log, Taken(s)) &&
    LastKept(c, s.out) &&
    (!Spliced(s) ==> Taken(s) == [])
  }

  /** Unless a resynchronisation is due, nothing owed is lost between the log, the queue and the client. */
  ghost predicate Conserved(c: Config, s: State)
    requires s.published <= |s.log|
  {
    !Doomed(s) && (Spliced(s) || c.cursor.None?) ==>
      InBalance(c, s)
  }

  ghost predicate InBalance(c: Config, s: State)
    requires s.published <= |s.log|
  {
    Balanced(s.attached, Taken(s), Ahead(c, s), Unpublished(c, s), Owed(s.log, c.floor))
  }

  /** Steps of the dispatcher do not touch what the stream has taken. */
  lemma {:induction false} SameTaken(c: Config, s: State, t: State)
    requires t.out == s.out && t.phase == s.phase
    ensures Taken(t) == Taken(s) && Mark(c, t) == Mark(c, s)
    ensures t.log == s.log && SentKept(c, s) ==> SentKept(c, t)
  {
  }

  /** Taken, queued and, while the queue is attached, unpublished events make up what is owed. */
  ghost predicate Balanced(attached: bool, taken: seq<int>, ahead: seq<int>, unpublished: seq<int>, owed: seq<int>) {
    taken + ahead <= owed && (attached ==> taken + ahead + unpublished == owed)
  }

  lemma {:induction false} BalancedRecord(
    attached: bool, taken: seq<int>, ahead: seq<int>, unpublished: seq<int>, owed: seq<int>, x: seq<int>)
    requires Balanced(attached, taken, ahead, unpublished, owed)
    ensures Balanced(attached, taken, ahead, unpublished + x, owed + x)
  {
  }

  lemma {:induction false} BalancedPublish(
    attached: bool, taken: seq<int>, ahead: seq<int>, x: seq<int>, unpublished: seq<int>, owed: seq<int>)
    requires Balanced(attached, taken, ahead, x + unpublished, owed)
    ensures attached ==> Balanced(attached, taken, ahead + x, unpublished, owed)
    ensures !attached ==> Balanced(attached, taken, ahead, unpublished, owed)
  {
  }

  lemma {:induction false} BalancedEnds(attached: bool, owed: seq<int>)
    ensures Balanced(attached, [], [], owed, owed) && Balanced(attached, owed, [], [], owed)
  {
  }

  lemma {:induction false} BalancedTake(
    attached: bool, taken: seq<int>, x: seq<int>, ahead: seq<int>, unpublished: seq<int>, owed: seq<int>)
    requires Balanced(attached, taken, x + ahead, unpublished, owed)
    ensures Balanced(attached, taken + x, ahead, unpublished, owed)
  {
  }

  ghost predicate Inv(c: Config, s: State) {
    LogKept(c, s) && QueueKept(c, s) && HeadKept(s) && SentKept(c, s) && Conserved(c, s) &&
    s.out == HandleAll(Opened(c.cursor), s.handled)
  }

  lemma {:induction false} FreshAppend(ds: seq<Delivery>, d: Delivery, last: Option<int>)
    ensures Fresh(ds + [d], last) == Fresh(ds, last) + if d.Change? && After(d.cursor, last) then [d.cursor] else []
  {
    if ds != [] {
      assert (ds + [d])[1..] == ds[1..] + [d];
      FreshAppend(ds[1..], d, last);
    }
  }

  lemma {:induction false} FreshSame(ds: seq<Delivery>, a: Option<int>, b: Option<int>)
    requires forall x | x in Fresh(ds, None) :: After(x, a) <==> After(x, b)
    ensures Fresh(ds, a) == Fresh(ds, b)
  {
    if ds != [] {
      FreshSame(ds[1..], a, b);
    }
  }

  lemma {:induction false} FreshNone(ds: seq<Delivery>, last: Option<int>)
    requires forall x | x in Fresh(ds, None) :: !After(x, last)
    ensures Fresh(ds, last) == []
  {
    if ds != [] {
      FreshNone(ds[1..], last);
    }
  }

  lemma {:induction false} TailIncreases(ds: seq<Delivery>)
    requires ds != [] && Increasing(Fresh(ds, None))
    ensures Increasing(Fresh(ds[1..], None))
    ensures ds[0].Change? ==> forall x | x in Fresh(ds[1..], None) :: ds[0].cursor < x
  {
    var all, rest := Fresh(ds, None), Fresh(ds[1..], None);
    if ds[0].Change? {
      assert all == [ds[0].cursor] + rest;
      RestIncreases(ds[0].cursor, rest);
    } else {
      assert all == rest;
    }
  }

  lemma {:induction false} RestIncreases(x: int, rest: seq<int>)
    requires Increasing([x] + rest)
    ensures Increasing(rest) && forall y | y in rest :: x < y
  {
    var all := [x] + rest;
    forall i | 0 <= i < |rest| ensures rest[i] == all[i + 1] && x < rest[i] {
      assert all[0] == x;
    }
    forall i, j | 0 <= i < j < |rest| ensures rest[i] < rest[j] {
      assert all[i + 1] < all[j + 1];
    }
  }

  // Appending to the log.

  lemma {:induction false} RecordedGrows(log: seq<Event>, e: Event)
    ensures forall x :: Recorded(log, x) ==> Recorded(log + [e], x)
  {
    forall x | Recorded(log, x) ensures Recorded(log + [e], x) {
      var i :| 0 <= i < |log| && log[i].permitted && log[i].cursor == x;
      assert (log + [e])[i] == log[i];
    }
  }

  ghost predicate Latest(s: State, e: Event) {
    forall x | x in s.log :: x.cursor < e.cursor
  }

  lemma {:induction false} NewestIsAfterFloor(c: Config, s: State, e: Event)
    requires LogKept(c, s) && Latest(s, e) && c.cursor.None?
    ensures After(e.cursor, c.floor)
  {
  }

  lemma {:induction false} NewestIsOwedAlike(c: Config, s: State, e: Event)
    requires LogKept(c, s) && SentKept(c, s) && Latest(s, e)
    ensures Owes(e, c.floor) <==> Owes(e, Mark(c, s))
  {
    var taken := Taken(s);
    if taken != [] {
      var last := taken[|taken| - 1];
      assert last in taken;
      var i :| 0 <= i < |s.log| && s.log[i].permitted && s.log[i].cursor == last;
      assert s.log[i] in s.log;
    } else if c.cursor.None? {
      NewestIsAfterFloor(c, s, e);
    }
  }

  lemma {:induction false} AppendKeepsLog(c: Config, s: State, e: Event)
    requires LogKept(c, s) && Latest(s, e)
    ensures LogKept(c, s.(log := s.log + [e]))
  {
    var t := s.(log := s.log + [e]);
    assert t.log[t.published..] == s.log[s.published..] + [e];
    forall i, j | 0 <= i < j < |t.log| ensures t.log[i].cursor < t.log[j].cursor {
      if j == |s.log| {
        assert s.log[i] in s.log;
      }
    }
    if c.cursor.None? {
      NewestIsAfterFloor(c, s, e);
      if c.floor.Some? {
        var i :| 0 <= i < |s.log| && s.log[i].cursor == c.floor.value;
        assert t.log[i] == s.log[i];
      }
    }
  }

  lemma {:induction false} RecordedIsEarlier(s: State, e: Event, x: int)
    requires Latest(s, e) && Recorded(s.log, x)
    ensures x < e.cursor
  {
  }

  lemma {:induction false} AppendKeepsQueue(c: Config, s: State, e: Event)
    requires LogKept(c, s) && QueueKept(c, s) && Latest(s, e)
    ensures QueueKept(c, s.(log := s.log + [e]))
  {
    var t := s.(log := s.log + [e]);
    assert t.log[t.published..] == s.log[s.published..] + [e];
    RecordedGrows(s.log, e);
    forall q | q in Fresh(s.queue, None) ensures Before(t, q) {
      RecordedIsEarlier(s, e, q);
    }
    if s.latest.Some? {
      RecordedIsEarlier(s, e, s.latest.value);
    }
  }

  lemma {:induction false} AppendBalances(c: Config, s: State, e: Event)
    requires LogKept(c, s) && SentKept(c, s) && InBalance(c, s) && Latest(s, e)
    ensures InBalance(c, s.(log := s.log + [e]))
  {
    var t := s.(log := s.log + [e]);
    var mark := Mark(c, s);
    NewestIsOwedAlike(c, s, e);
    SameTaken(c, s, t);
    UnpublishedLast(s, e, mark);
    OwedGrows(s.log, e, c.floor);
    BalancedRecord(
      s.attached, Taken(s), Ahead(c, s), Unpublished(c, s), Owed(s.log, c.floor),
      if Owes(e, c.floor) then [e.cursor] else []);
  }

  lemma {:induction false} UnpublishedLast(s: State, e: Event, mark: Option<int>)
    requires s.published <= |s.log|
    ensures Owed((s.log + [e])[s.published..], mark) ==
      Owed(s.log[s.published..], mark) + if Owes(e, mark) then [e.cursor] else []
  {
    assert (s.log + [e])[s.published..] == s.log[s.published..] + [e];
    OwedGrows(s.log[s.published..], e, mark);
  }

  lemma {:induction false} AppendConserves(c: Config, s: State, e: Event)
    requires LogKept(c, s) && SentKept(c, s) && Conserved(c, s) && Latest(s, e)
    ensures Conserved(c, s.(log := s.log + [e]))
  {
    if InBalance(c, s) {
      AppendBalances(c, s, e);
    }
  }

  lemma {:induction false} AppendKeeps(c: Config, s: State, e: Event)
    requires Inv(c, s) && Latest(s, e)
    ensures Inv(c, s.(log := s.log + [e]))
  {
    AppendKeepsLog(c, s, e);
    AppendKeepsQueue(c, s, e);
    RecordedGrows(s.log, e);
    AppendConserves(c, s, e);
  }

  // Publishing.

  lemma {:induction false} NextUnpublished(s: State)
    requires s.published < |s.log| && Ordered(s.log)
    ensures
      var e, rest := s.log[s.published], s.log[s.published + 1..];
      s.log[s.published..] == [e] + rest && forall x | x in rest :: e.cursor < x.cursor
  {
  }

  lemma {:induction false} PublishKeepsQueue(c: Config, s: State)
    requires LogKept(c, s) && QueueKept(c, s) && s.published < |s.log|
    ensures QueueKept(c, Offer(c, s.(published := s.published + 1), s.log[s.published]))
  {
    var e := s.log[s.published];
    var t := Offer(c, s.(published := s.published + 1), e);
    NextUnpublished(s);
    assert e in s.log[s.published..];
    assert Before(t, e.cursor);
    if t.queue != s.queue {
      FreshAppend(s.queue, Change(e.cursor), None);
      var queued := Fresh(s.queue, None);
      forall i | 0 <= i < |queued| ensures queued[i] < e.cursor {
        assert queued[i] in queued;
      }
      assert Recorded(s.log, e.cursor);
    }
  }

  lemma {:induction false} PublishConserves(c: Config, s: State)
    requires LogKept(c, s) && QueueKept(c, s) && Conserved(c, s) && s.published < |s.log|
    ensures Conserved(c, Offer(c, s.(published := s.published + 1), s.log[s.published]))
  {
    var t := Offer(c, s.(published := s.published + 1), s.log[s.published]);
    if !t.draining && InBalance(c, s) {
      PublishBalances(c, s);
    }
  }

  lemma {:induction false} PublishBalances(c: Config, s: State)
    requires LogKept(c, s) && QueueKept(c, s) && InBalance(c, s) && s.published < |s.log|
    requires !Offer(c, s.(published := s.published + 1), s.log[s.published]).draining
    ensures InBalance(c, Offer(c, s.(published := s.published + 1), s.log[s.published]))
  {
    var e := s.log[s.published];
    var t := Offer(c, s.(published := s.published + 1), e);
    var mark := Mark(c, s);
    SameTaken(c, s, t);
    UnpublishedFirst(s, mark);
    OfferedIsAhead(c, s, mark);
    BalancedPublish(
      s.attached, Taken(s), Ahead(c, s), if Owes(e, mark) then [e.cursor] else [], Unpublished(c, t),
      Owed(s.log, c.floor));
  }

  lemma {:induction false} UnpublishedFirst(s: State, mark: Option<int>)
    requires s.published < |s.log|
    ensures
      var e := s.log[s.published];
      Owed(s.log[s.published..], mark) ==
      (if Owes(e, mark) then [e.cursor] else []) + Owed(s.log[s.published + 1..], mark)
  {
    var e, rest := s.log[s.published], s.log[s.published + 1..];
    assert s.log[s.published..] == [e] + rest;
    OwedAppend([e], rest, mark);
    assert [e][..0] == [];
  }

  lemma {:induction false} OfferedIsAhead(c: Config, s: State, mark: Option<int>)
    requires LogKept(c, s) && QueueKept(c, s) && s.published < |s.log|
    ensures
      var e := s.log[s.published];
      var t := Offer(c, s.(published := s.published + 1), e);
      if !s.attached then t.queue == s.queue
      else t.draining || Fresh(t.queue, mark) == Fresh(s.queue, mark) + if Owes(e, mark) then [e.cursor] else []
  {
    var e := s.log[s.published];
    FreshAppend(s.queue, Change(e.cursor), mark);
    assert e in s.log[s.published..];
  }

  lemma {:induction false} PublishKeeps(c: Config, s: State)
    requires Inv(c, s) && s.published < |s.log|
    ensures Inv(c, Offer(c, s.(published := s.published + 1), s.log[s.published]))
  {
    SameTaken(c, s, Offer(c, s.(published := s.published + 1), s.log[s.published]));
    PublishKeepsLog(c, s);
    PublishKeepsQueue(c, s);
    PublishConserves(c, s);
  }

  lemma {:induction false} PublishKeepsLog(c: Config, s: State)
    requires LogKept(c, s) && s.published < |s.log|
    ensures LogKept(c, s.(published := s.published + 1))
  {
    NextUnpublished(s);
  }

  lemma {:induction false} RecoveryKeeps(c: Config, s: State)
    requires Inv(c, s) && s.published < |s.log| && (s.attached ==> Doomed(s))
    ensures Inv(c, s.(published := s.published + 1))
  {
    var t := s.(published := s.published + 1);
    PublishKeepsLog(c, s);
    RecoveryKeepsQueue(c, s);
    SameTaken(c, s, t);
  }

  lemma {:induction false} RecoveryKeepsQueue(c: Config, s: State)
    requires LogKept(c, s) && QueueKept(c, s) && s.published < |s.log|
    ensures QueueKept(c, s.(published := s.published + 1))
  {
    NextUnpublished(s);
  }

  // The dispatcher empties the queue.

  lemma {:induction false} DropKeeps(c: Config, s: State)
    requires Inv(c, s) && s.draining && s.queue != []
    ensures Inv(c, s.(queue := s.queue[1..]))
  {
    var t := s.(queue := s.queue[1..]);
    SameTaken(c, s, t);
    TailKept(c, s);
  }

  lemma {:induction false} TailKept(c: Config, s: State)
    requires LogKept(c, s) && QueueKept(c, s) && s.queue != []
    ensures QueueKept(c, s.(queue := s.queue[1..]))
  {
    TailIncreases(s.queue);
    assert forall x :: x in Fresh(s.queue[1..], None) ==> x in Fresh(s.queue, None);
  }

  lemma {:induction false} DrainKeeps(c: Config, s: State, l: Label, t: State)
    requires Inv(c, s) && Next(c, s, l, t) && (l.RequireResync? || l.PutResync? || l.Detach?)
    ensures Inv(c, t)
  {
    SameTaken(c, s, t);
    if l.PutResync? {
      assert Fresh([Resync], None) == [];
    } else {
      assert t.queue == s.queue;
    }
  }

  // Reading the log.

  lemma {:induction false} EventsAfterOwed(log: seq<Event>, last: Option<int>)
    ensures Owed(EventsAfter(log, last), None) == Owed(log, last)
  {
    if log != [] {
      var n := |log| - 1;
      EventsAfterOwed(log[..n], last);
      if After(log[n].cursor, last) {
        OwedGrows(EventsAfter(log[..n], last), log[n], None);
      } else {
        assert EventsAfter(log, last) == EventsAfter(log[..n], last);
      }
    }
  }

  lemma {:induction false} FreshChanges(cursors: seq<int>, end: seq<Delivery>)
    requires end == [] || end == [Resync]
    ensures Fresh(Changes(cursors) + end, None) == cursors
  {
    var ds := Changes(cursors) + end;
    if cursors != [] {
      assert ds[1..] == Changes(cursors[1..]) + end;
      FreshChanges(cursors[1..], end);
    }
  }

  /** The replay starts what is owed and, unless it asks for a resynchronisation, is all of it. */
  lemma {:induction false} ReplayedIsOwed(c: Config, log: seq<Event>)
    requires c.cursor.Some?
    ensures Fresh(Replayed(c, log), None) <= Owed(log, c.cursor)
    ensures Resync !in Replayed(c, log) ==> Fresh(Replayed(c, log), None) == Owed(log, c.cursor)
  {
    var later := EventsAfter(log, c.cursor);
    EventsAfterOwed(log, c.cursor);
    if |later| <= c.limit {
      FreshChanges(Owed(later, None), []);
      assert Changes(Owed(later, None)) + [] == Changes(Owed(later, None));
    } else {
      FreshChanges(Owed(later[..c.limit], None), [Resync]);
      OwedAppend(later[..c.limit], later[c.limit..], None);
      assert later == later[..c.limit] + later[c.limit..];
      assert Replayed(c, log)[|Replayed(c, log)| - 1] == Resync;
    }
  }

  lemma {:induction false} PrefixIncreases(a: seq<int>, b: seq<int>)
    requires a <= b && Increasing(b)
    ensures Increasing(a) && forall x | x in a :: x in b
  {
    assert forall i | 0 <= i < |a| :: a[i] == b[i];
  }

  /** Once all that is owed has been taken, no recorded event is ahead of the mark. */
  lemma {:induction false} NothingAhead(log: seq<Event>, floor: Option<int>, x: int)
    requires Ordered(log) && Recorded(log, x)
    ensures
      var owed := Owed(log, floor);
      !After(x, if owed == [] then floor else Some(owed[|owed| - 1]))
  {
    var owed := Owed(log, floor);
    OwedIncreases(log, floor);
    OwedHas(log, floor, x);
    if owed != [] {
      var last := owed[|owed| - 1];
      assert last in owed;
      OwedHas(log, floor, last);
      if x in owed {
        var i :| 0 <= i < |owed| && owed[i] == x;
      }
    }
  }

  lemma {:induction false} ReplayTakes(c: Config, s: State, t: State)
    requires Inv(c, s) && Next(c, s, Replay, t) && c.cursor.Some? && t.phase.Replaying?
    ensures Taken(t) <= Owed(s.log, c.floor) && SentKept(c, t)
    ensures Resync !in Pending(t) ==> Taken(t) == Owed(s.log, c.floor)
  {
    assert Taken(s) == [] && s.out.sent == [];
    ReplayedIsOwed(c, s.log);
    assert Taken(t) == Fresh(Pending(t), None);
    OwedIncreases(s.log, c.floor);
    PrefixIncreases(Taken(t), Owed(s.log, c.floor));
    forall x | x in Taken(t) ensures Recorded(s.log, x) && After(x, c.floor) {
      OwedHas(s.log, c.floor, x);
    }
  }

  lemma {:induction false} ReplayKeeps(c: Config, s: State, t: State)
    requires Inv(c, s) && Next(c, s, Replay, t)
    ensures Inv(c, t)
  {
    assert Taken(s) == [];
    if t.phase.Replaying? && c.cursor.Some? {
      ReplayTakes(c, s, t);
      if !Doomed(t) {
        ReplayBalances(c, s, t);
      }
    } else {
      assert Taken(t) == Taken(s);
    }
  }

  lemma {:induction false} ReplayBalances(c: Config, s: State, t: State)
    requires Inv(c, s) && Next(c, s, Replay, t) && c.cursor.Some? && t.phase.Replaying?
    requires Taken(t) == Owed(s.log, c.floor)
    ensures InBalance(c, t)
  {
    var mark := Mark(c, t);
    forall x | Recorded(s.log, x) ensures !After(x, mark) {
      NothingAhead(s.log, c.floor, x);
    }
    FreshNone(s.queue, mark);
    UnpublishedNone(s, mark);
    BalancedEnds(s.attached, Owed(s.log, c.floor));
  }

  lemma {:induction false} UnpublishedNone(s: State, mark: Option<int>)
    requires s.published <= |s.log| && forall x | Recorded(s.log, x) :: !After(x, mark)
    ensures Owed(s.log[s.published..], mark) == []
  {
    forall e | e in s.log[s.published..] ensures !Owes(e, mark) {
      var i :| s.published <= i < |s.log| && s.log[i] == e;
      assert e.permitted ==> Recorded(s.log, e.cursor);
    }
    OwedNone(s.log[s.published..], mark);
  }

  // The stream reads a delivery.

  lemma {:induction false} SendTakes(c: Config, s: State, t: State)
    requires SentKept(c, s) && (c.cursor.Some? ==> c.floor == c.cursor) && Next(c, s, SendReplayed, t)
    ensures Taken(t) == Taken(s)
    ensures LastKept(c, t.out)
  {
    SendOne(c, s.out, s.phase.pending);
  }

  lemma {:induction false} SendOne(c: Config, out: Stream, pending: seq<Delivery>)
    requires !out.ended && pending != [] && Increasing(out.sent + Fresh(pending, None))
    requires LastKept(c, out)
    requires c.cursor.Some? ==> forall x | x in out.sent + Fresh(pending, None) :: After(x, c.cursor)
    ensures
      var t := Handle(out, pending[0]);
      t.sent + Fresh(pending[1..], None) == out.sent + Fresh(pending, None) && LastKept(c, t)
  {
    var d, rest := pending[0], Fresh(pending[1..], None);
    if d.Change? {
      assert Fresh(pending, None) == [d.cursor] + rest;
      assert d.cursor in out.sent + ([d.cursor] + rest);
      FirstIsNext(c, out.sent, d.cursor, rest, out.last);
      Regroup(out.sent, d.cursor, rest);
    } else {
      assert Fresh(pending, None) == rest;
    }
  }

  lemma {:induction false} Regroup(sent: seq<int>, x: int, rest: seq<int>)
    ensures sent + ([x] + rest) == sent + [x] + rest
  {
  }

  lemma {:induction false} FirstIsNext(c: Config, sent: seq<int>, x: int, rest: seq<int>, last: Option<int>)
    requires Increasing(sent + ([x] + rest)) && (c.cursor.Some? ==> After(x, c.cursor))
    requires last == if sent == [] then c.cursor else Some(sent[|sent| - 1])
    ensures After(x, last)
  {
    if sent != [] {
      var all := sent + ([x] + rest);
      assert all[|sent| - 1] == sent[|sent| - 1] && all[|sent|] == x;
    }
  }

  lemma {:induction false} SendKeeps(c: Config, s: State, t: State)
    requires Inv(c, s) && Next(c, s, SendReplayed, t)
    ensures Inv(c, t)
  {
    SendTakes(c, s, t);
    HandleOne(Opened(c.cursor), s.handled, s.phase.pending[0]);
    if !Doomed(t) {
      SendDooms(c, s, t);
    }
  }

  lemma {:induction false} SendDooms(c: Config, s: State, t: State)
    requires Next(c, s, SendReplayed, t)
    ensures Doomed(s) ==> Doomed(t)
  {
    assert s.phase.pending == [s.phase.pending[0]] + s.phase.pending[1..];
  }

  lemma {:induction false} LiveTaken(s: State)
    requires s.phase == Live
    ensures Taken(s) == s.out.sent
  {
    assert Fresh(Pending(s), None) == [];
  }

  lemma {:induction false} TakeSent(c: Config, s: State, t: State)
    requires LogKept(c, s) && SentKept(c, s) && QueueKept(c, s) && Next(c, s, Take, t)
    ensures SentKept(c, t)
  {
    LiveTaken(s);
    LiveTaken(t);
    if s.queue[0].Change? {
      FirstQueued(c, s);
      TakeOne(c, s.log, s.out, s.queue[0].cursor);
    }
  }

  lemma {:induction false} TakeOne(c: Config, log: seq<Event>, out: Stream, x: int)
    requires Genuine(c, log, out.sent) && LastKept(c, out) && (c.cursor.Some? ==> c.floor == c.cursor)
    requires Recorded(log, x) && (c.cursor.None? ==> After(x, c.floor))
    ensures Genuine(c, log, Handle(out, Change(x)).sent) && LastKept(c, Handle(out, Change(x)))
  {
    if After(x, out.last) {
      GenuineMore(c, log, out.sent, x);
    }
  }

  lemma {:induction false} FirstQueued(c: Config, s: State)
    requires LogKept(c, s) && QueueKept(c, s) && s.queue != [] && s.queue[0].Change?
    ensures Recorded(s.log, s.queue[0].cursor) && (c.cursor.None? ==> After(s.queue[0].cursor, c.floor))
    ensures Before(s, s.queue[0].cursor)
  {
    assert s.queue[0].cursor in Fresh(s.queue, None);
  }

  lemma {:induction false} GenuineMore(c: Config, log: seq<Event>, sent: seq<int>, x: int)
    requires Genuine(c, log, sent) && Recorded(log, x) && (c.cursor.None? ==> After(x, c.floor))
    requires c.cursor.Some? ==> c.floor == c.cursor
    requires After(x, if sent == [] then c.cursor else Some(sent[|sent| - 1]))
    ensures Genuine(c, log, sent + [x])
  {
    if sent != [] {
      var last := sent[|sent| - 1];
      assert last in sent;
      assert forall i | 0 <= i < |sent| :: sent[i] <= last;
    }
  }

  /** The delivery leaves the queue for the client, or was behind the mark already. */
  lemma {:induction false} TakeBalances(c: Config, s: State, t: State)
    requires LogKept(c, s) && SentKept(c, s) && QueueKept(c, s) && InBalance(c, s)
    requires Next(c, s, Take, t) && s.queue[0].Change?
    ensures InBalance(c, t)
  {
    LiveTaken(s);
    if After(s.queue[0].cursor, Mark(c, s)) {
      AcceptBalances(c, s, t);
    } else {
      SkipBalances(c, s, t);
    }
  }

  lemma {:induction false} AcceptBalances(c: Config, s: State, t: State)
    requires LogKept(c, s) && QueueKept(c, s) && InBalance(c, s) && Next(c, s, Take, t)
    requires s.queue[0].Change? && Mark(c, s) == s.out.last && After(s.queue[0].cursor, s.out.last)
    ensures InBalance(c, t)
  {
    var x := s.queue[0].cursor;
    LiveTaken(s);
    LiveTaken(t);
    TakeMoves(c, s, s.out.last);
    assert t.out.sent == s.out.sent + [x] && Mark(c, t) == Some(x);
    BalancedTake(s.attached, s.out.sent, [x], Ahead(c, t), Unpublished(c, t), Owed(s.log, c.floor));
  }

  lemma {:induction false} SkipBalances(c: Config, s: State, t: State)
    requires LogKept(c, s) && InBalance(c, s) && Next(c, s, Take, t)
    requires s.queue[0].Change? && Mark(c, s) == s.out.last && !After(s.queue[0].cursor, s.out.last)
    ensures InBalance(c, t)
  {
    LiveTaken(s);
    LiveTaken(t);
    assert t.out == s.out && Mark(c, t) == Mark(c, s);
    assert Fresh(s.queue, s.out.last) == Fresh(s.queue[1..], s.out.last);
  }

  lemma {:induction false} TakeMoves(c: Config, s: State, mark: Option<int>)
    requires LogKept(c, s) && QueueKept(c, s) && s.queue != [] && s.queue[0].Change? && After(s.queue[0].cursor, mark)
    ensures
      var x := s.queue[0].cursor;
      Fresh(s.queue, mark) == [x] + Fresh(s.queue[1..], Some(x)) &&
      Owed(s.log[s.published..], mark) == Owed(s.log[s.published..], Some(x))
  {
    var x := s.queue[0].cursor;
    TailIncreases(s.queue);
    FreshSame(s.queue[1..], mark, Some(x));
    FirstQueued(c, s);
    OwedSame(s.log[s.published..], mark, Some(x));
  }

  lemma {:induction false} TakeKeeps(c: Config, s: State, t: State)
    requires Inv(c, s) && Next(c, s, Take, t)
    ensures Inv(c, t)
  {
    TakeSent(c, s, t);
    TailKept(c, s);
    HandleOne(Opened(c.cursor), s.handled, s.queue[0]);
    TakeDooms(c, s, t);
    if !Doomed(t) {
      TakeBalances(c, s, t);
    }
  }

  lemma {:induction false} TakeDooms(c: Config, s: State, t: State)
    requires HeadKept(s) && Next(c, s, Take, t)
    ensures HeadKept(t)
    ensures Doomed(s) || s.queue[0].Resync? ==> Doomed(t)
  {
    assert s.queue == [s.queue[0]] + s.queue[1..];
  }

  lemma {:induction false} GoLiveKeeps(c: Config, s: State, t: State)
    requires Inv(c, s) && Next(c, s, GoLive, t)
    ensures Inv(c, t)
  {
    assert Taken(t) == Taken(s) && Mark(c, t) == Mark(c, s);
  }

  lemma {:induction false} NextKeeps(c: Config, s: State, l: Label, t: State)
    requires Inv(c, s) && Next(c, s, l, t)
    ensures Inv(c, t)
  {
    match l
    case Append(e) => AppendKeeps(c, s, e);
    case Publish => PublishKeeps(c, s);
    case PublishInRecovery => RecoveryKeeps(c, s);
    case Drop => DropKeeps(c, s);
    case Replay => ReplayKeeps(c, s, t);
    case SendReplayed => SendKeeps(c, s, t);
    case GoLive => GoLiveKeeps(c, s, t);
    case Take => TakeKeeps(c, s, t);
    case _ => DrainKeeps(c, s, l, t);
  }
}
