/** One subscriber's stream of events: subscribe, then replay, then live deliveries, filtered by cursor. */
module RealtimeStream {
  import opened Json
  import opened RealtimeEvents

  /** What the stream has sent: the last accepted cursor, the cursors of the events, and its end. */
  datatype Stream = Stream(last: Option<int>, sent: seq<int>, ended: bool)

  function Opened(cursor: Option<int>): Stream {
    Stream(cursor, [], false)
  }

  /** One delivery. A stream that asked for a resynchronisation is over. */
  function Handle(s: Stream, d: Delivery): Stream {
    if s.ended then s
    else
      match d
      case Resync => s.(ended := true)
      case Change(cursor) => if After(cursor, s.last) then Stream(Some(cursor), s.sent + [cursor], false) else s
  }

  function HandleAll(s: Stream, ds: seq<Delivery>): Stream {
    if ds == [] then s else Handle(HandleAll(s, ds[..|ds| - 1]), ds[|ds| - 1])
  }

  lemma {:induction false} HandleAppend(s: Stream, a: seq<Delivery>, b: seq<Delivery>)
    ensures HandleAll(s, a + b) == HandleAll(HandleAll(s, a), b)
  {
    if b == [] {
      assert a + b == a;
    } else {
      var n := |b| - 1;
      assert (a + b)[..|a| + n] == a + b[..n];
      HandleAppend(s, a, b[..n]);
    }
  }

  lemma {:induction false} HandleEnded(s: Stream, ds: seq<Delivery>)
    requires s.ended
    ensures HandleAll(s, ds) == s
  {
    if ds != [] {
      HandleEnded(s, ds[..|ds| - 1]);
    }
  }

  lemma {:induction false} HandleNext(s: Stream, ds: seq<Delivery>, i: nat)
    requires i < |ds|
    ensures HandleAll(s, ds[..i + 1]) == Handle(HandleAll(s, ds[..i]), ds[i])
  {
    assert ds[..i + 1][..i] == ds[..i];
  }

  /** The deliveries among the answers of the live queue, which is empty-handed at each timeout. */
  function Arrived(answers: seq<Option<Delivery>>): seq<Delivery> {
    if answers == [] then []
    else
      var last := answers[|answers| - 1];
      Arrived(answers[..|answers| - 1]) + if last.Some? then [last.value] else []
  }

  /**
   The generator: the replay, then the live queue's answers until the client disconnects, each
   sent unless its cursor is not after the last accepted one; a resynchronisation ends the stream.
   */
  method Events(cursor: Option<int>, replay: seq<Delivery>, answers: seq<Option<Delivery>>)
    returns (lastCursor: Option<int>, sent: seq<int>, resync: bool, keepAlives: nat)
    ensures Stream(lastCursor, sent, resync) == HandleAll(Opened(cursor), replay + Arrived(answers))
    ensures !resync ==> keepAlives + |Arrived(answers)| == |answers|
  {
    lastCursor, sent, resync, keepAlives := cursor, [], false, 0;
    ghost var start := Opened(cursor);
    for i := 0 to |replay|
      invariant !resync && Stream(lastCursor, sent, false) == HandleAll(start, replay[..i])
    {
      HandleNext(start, replay, i);
      match replay[i]
      case Change(c) =>
        if !After(c, lastCursor) {
          continue;
        }
        lastCursor, sent := Some(c), sent + [c];
      case Resync =>
        resync := true;
        Prefixed(start, replay, Arrived(answers), i + 1);
        return;
    }
    assert replay[..|replay|] == replay;
    ghost var replayed := HandleAll(start, replay);
    HandleAppend(start, replay, Arrived(answers));
    for i := 0 to |answers|
      invariant !resync && Stream(lastCursor, sent, false) == HandleAll(replayed, Arrived(answers[..i]))
      invariant keepAlives + |Arrived(answers[..i])| == i
    {
      ghost var before := Arrived(answers[..i]);
      ArrivedNext(answers, i);
      match answers[i]
      case None =>
        keepAlives := keepAlives + 1;
      case Some(delivery) =>
        HandleOne(replayed, before, delivery);
        match delivery {
          case Change(c) =>
            if After(c, lastCursor) {
              lastCursor, sent := Some(c), sent + [c];
            }
          case Resync =>
            resync := true;
            EndsHere(replayed, answers, i);
            return;
        }
    }
    assert answers[..|answers|] == answers;
  }

  lemma {:induction false} EndsHere(s: Stream, answers: seq<Option<Delivery>>, i: nat)
    requires i < |answers| && answers[i] == Some(Resync)
    ensures HandleAll(s, Arrived(answers)) == Handle(HandleAll(s, Arrived(answers[..i])), Resync)
  {
    var before := Arrived(answers[..i]);
    ArrivedNext(answers, i);
    ArrivedPrefix(answers, i + 1);
    HandleOne(s, before, Resync);
    assert Arrived(answers)[..|before| + 1] == before + [Resync];
    Prefixed(s, Arrived(answers), [], |before| + 1);
    assert Arrived(answers) + [] == Arrived(answers);
  }

  lemma {:induction false} HandleOne(s: Stream, ds: seq<Delivery>, d: Delivery)
    ensures HandleAll(s, ds + [d]) == Handle(HandleAll(s, ds), d)
  {
  }

  lemma {:induction false} ArrivedNext(answers: seq<Option<Delivery>>, i: nat)
    requires i < |answers|
    ensures Arrived(answers[..i + 1]) ==
      if answers[i].Some? then Arrived(answers[..i]) + [answers[i].value] else Arrived(answers[..i])
  {
    assert answers[..i + 1][..i] == answers[..i];
  }

  lemma {:induction false} Prefixed(start: Stream, replay: seq<Delivery>, live: seq<Delivery>, n: nat)
    requires n <= |replay| && HandleAll(start, replay[..n]).ended
    ensures HandleAll(start, replay + live) == HandleAll(start, replay[..n])
  {
    assert replay + live == replay[..n] + (replay[n..] + live);
    HandleAppend(start, replay[..n], replay[n..] + live);
    HandleEnded(HandleAll(start, replay[..n]), replay[n..] + live);
  }

  lemma {:induction false} ArrivedPrefix(answers: seq<Option<Delivery>>, n: nat)
    requires n <= |answers|
    ensures Arrived(answers[..n]) <= Arrived(answers)
  {
    if n < |answers| {
      ArrivedPrefix(answers[..|answers| - 1], n);
      assert answers[..|answers| - 1][..n] == answers[..n];
    } else {
      assert answers[..n] == answers;
    }
  }
}
