/** Exactly which reads leave a gap in what a client receives. */
module RealtimeGap {
  import opened Json
  import opened RealtimeEvents
  import opened RealtimeSplice
  import opened RealtimeDelivery

  /** The events that a step keeps from the client: dropped, without room, or passed over. */
  function LostBy(c: Config, s: State, l: Label): set<int> {
    if l.Drop? then if s.queue != [] && s.queue[0].Change? then {s.queue[0].cursor} else {}
    else if (l.Publish? || l.PublishInRecovery?) && s.published < |s.log| then
      var e := s.log[s.published];
      if e.permitted && (l.PublishInRecovery? || !s.attached || |s.queue| >= c.capacity) then {e.cursor} else {}
    else {}
  }

  /** The events lost before state `i` of a run. */
  function Lost(c: Config, states: seq<State>, labels: seq<Label>, i: nat): set<int>
    requires i <= |labels| <= |states|
  {
    if i == 0 then {} else Lost(c, states, labels, i - 1) + LostBy(c, states[i - 1], labels[i - 1])
  }

  ghost predicate LostKept(c: Config, s: State, lost: set<int>)
    requires s.published <= |s.log|
  {
    forall y | y in lost :: Recorded(s.log, y) && Before(s, y) && (c.cursor.None? ==> After(y, c.floor))
  }

  /** The stream still reads, and has read from the log all it was to read. */
  predicate Reading(c: Config, s: State) {
    (Spliced(s) || c.cursor.None?) && Resync !in Pending(s) && !s.out.ended
  }

  /** An owed event is taken or lost, or still ahead of the mark in the queue or the log. */
  ghost predicate Placed(c: Config, s: State, lost: set<int>, y: int)
    requires s.published <= |s.log|
  {
    y in Taken(s) || y in lost ||
    (After(y, Mark(c, s)) && (y in Fresh(s.queue, None) || Recorded(s.log[s.published..], y)))
  }

  ghost predicate Accounted(c: Config, s: State, lost: set<int>)
    requires s.published <= |s.log|
  {
    LostKept(c, s, lost) && (Reading(c, s) ==> forall y | y in Owed(s.log, c.floor) :: Placed(c, s, lost, y))
  }

  // What every step keeps.

  lemma {:induction false} RecordedMore(log: seq<Event>, e: Event, y: int)
    ensures Recorded(log + [e], y) <==> Recorded(log, y) || (e.permitted && e.cursor == y)
  {
    if Recorded(log, y) {
      RecordedGrows(log, e);
    }
    if e.permitted && e.cursor == y {
      assert (log + [e])[|log|] == e;
    }
    if i :| 0 <= i < |log + [e]| && (log + [e])[i].permitted && (log + [e])[i].cursor == y {
      assert i < |log| ==> log[i].permitted && log[i].cursor == y;
    }
  }

  lemma {:induction false} RecordedFirst(s: State, y: int)
    requires s.published < |s.log|
    ensures
      var e := s.log[s.published];
      Recorded(s.log[s.published..], y) <==> Recorded(s.log[s.published + 1..], y) || (e.permitted && e.cursor == y)
  {
    var rest, tail := s.log[s.published..], s.log[s.published + 1..];
    assert rest == [rest[0]] + tail;
    if i :| 0 <= i < |tail| && tail[i].permitted && tail[i].cursor == y {
      assert rest[i + 1].permitted && rest[i + 1].cursor == y;
    }
    if i :| 0 <= i < |rest| && rest[i].permitted && rest[i].cursor == y {
      assert i > 0 ==> tail[i - 1].permitted && tail[i - 1].cursor == y;
    }
    assert rest[0].permitted && rest[0].cursor == y ==> Recorded(rest, y);
  }

  lemma {:induction false} AppendAccounts(c: Config, s: State, e: Event, lost: set<int>)
    requires Inv(c, s) && Latest(s, e) && Accounted(c, s, lost)
    ensures Accounted(c, s.(log := s.log + [e]), lost)
  {
    var t := s.(log := s.log + [e]);
    SameTaken(c, s, t);
    assert t.log[t.published..] == s.log[s.published..] + [e];
    forall y | y in lost ensures Recorded(t.log, y) && Before(t, y) {
      RecordedIsEarlier(s, e, y);
      RecordedMore(s.log, e, y);
    }
    if Reading(c, t) {
      forall y | y in Owed(t.log, c.floor) ensures Placed(c, t, lost, y) {
        OwedGrows(s.log, e, c.floor);
        RecordedMore(s.log[s.published..], e, y);
        if y !in Owed(s.log, c.floor) {
          NewestIsOwedAlike(c, s, e);
        } else {
          assert Placed(c, s, lost, y);
        }
      }
    }
  }

  lemma {:induction false} PassedIsLost(c: Config, s: State, l: Label, lost: set<int>)
    requires LogKept(c, s) && s.published < |s.log| && LostKept(c, s, lost) && (l.Publish? || l.PublishInRecovery?)
    ensures LostKept(c, s.(published := s.published + 1), lost + LostBy(c, s, l))
  {
    NextUnpublished(s);
    var e := s.log[s.published];
    assert e in s.log[s.published..];
    assert e.permitted ==> Recorded(s.log, e.cursor);
  }

  /** The published event is queued, or lost. */
  lemma {:induction false} PublishedIsQueuedOrLost(c: Config, s: State, t: State, l: Label)
    requires LogKept(c, s) && QueueKept(c, s) && Next(c, s, l, t) && (l.Publish? || l.PublishInRecovery?)
    ensures
      var e := s.log[s.published];
      e.permitted ==> e.cursor in LostBy(c, s, l) || t.queue == s.queue + [Change(e.cursor)]
  {
    assert s.log[s.published] in s.log[s.published..];
  }

  lemma {:induction false} QueueOnlyGrows(c: Config, s: State, t: State, l: Label, y: int)
    requires Next(c, s, l, t) && (l.Publish? || l.PublishInRecovery?) && y in Fresh(s.queue, None)
    ensures y in Fresh(t.queue, None)
  {
    if t.queue != s.queue {
      FreshAppend(s.queue, t.queue[|s.queue|], None);
      assert t.queue == s.queue + [t.queue[|s.queue|]];
    }
  }

  lemma {:induction false} PublishedIsPlaced(c: Config, s: State, t: State, l: Label, lost: set<int>, y: int)
    requires LogKept(c, s) && QueueKept(c, s) && Next(c, s, l, t) && (l.Publish? || l.PublishInRecovery?)
    requires Placed(c, s, lost, y)
    ensures Placed(c, t, lost + LostBy(c, s, l), y)
  {
    SameTaken(c, s, t);
    if y in Fresh(s.queue, None) {
      QueueOnlyGrows(c, s, t, l, y);
    } else if Recorded(s.log[s.published..], y) {
      RecordedFirst(s, y);
      PublishedIsQueuedOrLost(c, s, t, l);
      FreshAppend(s.queue, Change(s.log[s.published].cursor), None);
    }
  }

  lemma {:induction false} PublishAccounts(c: Config, s: State, t: State, l: Label, lost: set<int>)
    requires Inv(c, s) && Next(c, s, l, t) && (l.Publish? || l.PublishInRecovery?) && Accounted(c, s, lost)
    ensures t.published <= |t.log| && Accounted(c, t, lost + LostBy(c, s, l))
  {
    PassedIsLost(c, s, l, lost);
    if Reading(c, t) {
      forall y | y in Owed(t.log, c.floor) ensures Placed(c, t, lost + LostBy(c, s, l), y) {
        PublishedIsPlaced(c, s, t, l, lost, y);
      }
    }
  }

  lemma {:induction false} DroppedIsPlaced(c: Config, s: State, lost: set<int>, y: int)
    requires s.published <= |s.log| && s.queue != [] && Placed(c, s, lost, y)
    ensures Placed(c, s.(queue := s.queue[1..]), lost + LostBy(c, s, Drop), y)
  {
    SameTaken(c, s, s.(queue := s.queue[1..]));
  }

  lemma {:induction false} DroppedIsLost(c: Config, s: State, lost: set<int>)
    requires LogKept(c, s) && QueueKept(c, s) && s.queue != [] && LostKept(c, s, lost)
    ensures LostKept(c, s.(queue := s.queue[1..]), lost + LostBy(c, s, Drop))
  {
    if s.queue[0].Change? {
      FirstQueued(c, s);
    }
  }

  lemma {:induction false} DropAccounts(c: Config, s: State, lost: set<int>)
    requires LogKept(c, s) && QueueKept(c, s) && s.queue != [] && Accounted(c, s, lost)
    ensures Accounted(c, s.(queue := s.queue[1..]), lost + LostBy(c, s, Drop))
  {
    DroppedIsLost(c, s, lost);
    forall y | Placed(c, s, lost, y) ensures Placed(c, s.(queue := s.queue[1..]), lost + LostBy(c, s, Drop), y) {
      DroppedIsPlaced(c, s, lost, y);
    }
  }

  lemma {:induction false} SamePlaces(c: Config, s: State, t: State, lost: set<int>)
    requires s.published <= |s.log| && Accounted(c, s, lost) && t.log == s.log && t.published == s.published
    requires Taken(t) == Taken(s) && Fresh(t.queue, None) == Fresh(s.queue, None) && (Reading(c, t) ==> Reading(c, s))
    ensures t.published <= |t.log| && Accounted(c, t, lost)
  {
    assert Mark(c, t) == Mark(c, s);
    if Reading(c, t) {
      forall y | y in Owed(t.log, c.floor) ensures Placed(c, t, lost, y) {
        assert Placed(c, s, lost, y);
      }
    }
  }

  lemma {:induction false} QuietAccounts(c: Config, s: State, t: State, l: Label, lost: set<int>)
    requires Inv(c, s) && Next(c, s, l, t) && Accounted(c, s, lost)
    requires l.RequireResync? || l.PutResync? || l.Detach? || l.GoLive?
    ensures t.published <= |t.log| && Accounted(c, t, lost)
  {
    if l.PutResync? {
      assert Fresh([Resync], None) == [];
    }
    assert Taken(t) == Taken(s);
    SamePlaces(c, s, t, lost);
  }

  lemma {:induction false} ReplayAccounts(c: Config, s: State, t: State, lost: set<int>)
    requires Inv(c, s) && Next(c, s, Replay, t) && Accounted(c, s, lost)
    ensures t.published <= |t.log| && Accounted(c, t, lost)
  {
    assert Taken(s) == [];
    if c.cursor.None? {
      assert Taken(t) == Taken(s);
      SamePlaces(c, s, t, lost);
    } else if Reading(c, t) {
      ReplayTakes(c, s, t);
    }
  }

  lemma {:induction false} SendAccounts(c: Config, s: State, t: State, lost: set<int>)
    requires Inv(c, s) && Next(c, s, SendReplayed, t) && Accounted(c, s, lost)
    ensures t.published <= |t.log| && Accounted(c, t, lost)
  {
    SendTakes(c, s, t);
    assert s.phase.pending == [s.phase.pending[0]] + s.phase.pending[1..];
    SamePlaces(c, s, t, lost);
  }

  lemma {:induction false} UnpublishedIsLater(s: State, x: int, y: int)
    requires s.published <= |s.log| && Before(s, x)
    ensures Recorded(s.log[s.published..], y) ==> x < y
  {
    var rest := s.log[s.published..];
    if i :| 0 <= i < |rest| && rest[i].permitted && rest[i].cursor == y {
      assert rest[i] in rest;
    }
  }

  lemma {:induction false} AcceptedIsPlaced(c: Config, s: State, t: State, lost: set<int>, y: int)
    requires LogKept(c, s) && QueueKept(c, s) && Next(c, s, Take, t) && s.queue[0].Change?
    requires t.out.sent == s.out.sent + [s.queue[0].cursor] && Placed(c, s, lost, y)
    ensures Placed(c, t, lost, y)
  {
    LiveTaken(s);
    LiveTaken(t);
    TailIncreases(s.queue);
    FirstQueued(c, s);
    UnpublishedIsLater(s, s.queue[0].cursor, y);
  }

  lemma {:induction false} SkippedIsPlaced(c: Config, s: State, t: State, lost: set<int>, y: int)
    requires LogKept(c, s) && Next(c, s, Take, t) && s.queue[0].Change? && !After(s.queue[0].cursor, Mark(c, s))
    requires t.out == s.out && Placed(c, s, lost, y)
    ensures Placed(c, t, lost, y)
  {
    LiveTaken(s);
    LiveTaken(t);
    assert Mark(c, t) == Mark(c, s);
  }

  lemma {:induction false} TakenIsPlaced(c: Config, s: State, t: State, lost: set<int>, y: int)
    requires LogKept(c, s) && QueueKept(c, s) && SentKept(c, s) && Next(c, s, Take, t) && s.queue[0].Change?
    requires Placed(c, s, lost, y)
    ensures Placed(c, t, lost, y)
  {
    LiveTaken(s);
    if After(s.queue[0].cursor, s.out.last) {
      AcceptedIsPlaced(c, s, t, lost, y);
    } else {
      SkippedIsPlaced(c, s, t, lost, y);
    }
  }

  lemma {:induction false} TakeAccounts(c: Config, s: State, t: State, lost: set<int>)
    requires Inv(c, s) && Next(c, s, Take, t) && Accounted(c, s, lost)
    ensures t.published <= |t.log| && Accounted(c, t, lost)
  {
    if Reading(c, t) {
      forall y | y in Owed(t.log, c.floor) ensures Placed(c, t, lost, y) {
        TakenIsPlaced(c, s, t, lost, y);
      }
    }
  }

  lemma {:induction false} NextAccounts(c: Config, s: State, l: Label, t: State, lost: set<int>)
    requires Inv(c, s) && Next(c, s, l, t) && Accounted(c, s, lost)
    ensures t.published <= |t.log| && Accounted(c, t, lost + LostBy(c, s, l))
  {
    assert lost + {} == lost;
    match l
    case Append(e) => AppendAccounts(c, s, e, lost);
    case Publish => PublishAccounts(c, s, t, l, lost);
    case PublishInRecovery => PublishAccounts(c, s, t, l, lost);
    case Drop => DropAccounts(c, s, lost);
    case Replay => ReplayAccounts(c, s, t, lost);
    case SendReplayed => SendAccounts(c, s, t, lost);
    case Take => TakeAccounts(c, s, t, lost);
    case _ => QuietAccounts(c, s, t, l, lost);
  }

  lemma {:induction false} InitAccounts(c: Config, s: State)
    requires Init(c, s)
    ensures s.published <= |s.log| && Accounted(c, s, {})
  {
    if Reading(c, s) {
      InitLog(c, s);
      InitOwed(c, s);
      assert Taken(s) == [];
      forall y | y in Owed(s.log, c.floor) ensures Placed(c, s, {}, y) {
        OwedHas(s.log[s.published..], None, y);
      }
    }
  }

  lemma {:induction false} RunAccountsNext(c: Config, states: seq<State>, labels: seq<Label>, i: nat)
    requires Run(c, states, labels) && i < |labels| && states[i].published <= |states[i].log|
    requires Accounted(c, states[i], Lost(c, states, labels, i))
    ensures states[i + 1].published <= |states[i + 1].log|
    ensures Accounted(c, states[i + 1], Lost(c, states, labels, i + 1))
  {
    RunKeeps(c, states, labels, i);
    NextAccounts(c, states[i], labels[i], states[i + 1], Lost(c, states, labels, i));
  }

  lemma {:induction false} Always(p: nat -> bool, i: nat)
    requires p(0) && forall k: nat | k < i :: p(k) ==> p(k + 1)
    ensures p(i)
  {
    if i > 0 {
      Always(p, i - 1);
      assert p(i - 1) ==> p(i - 1 + 1);
    }
  }

  ghost predicate AccountedAt(c: Config, states: seq<State>, labels: seq<Label>, i: nat) {
    i <= |labels| < |states| && states[i].published <= |states[i].log| &&
    Accounted(c, states[i], Lost(c, states, labels, i))
  }

  lemma {:induction false} StartAccounts(c: Config, states: seq<State>, labels: seq<Label>)
    requires Run(c, states, labels)
    ensures AccountedAt(c, states, labels, 0)
  {
    InitAccounts(c, states[0]);
  }

  lemma {:induction false} RunAccounts(c: Config, states: seq<State>, labels: seq<Label>, i: nat)
    requires Run(c, states, labels) && i < |states|
    ensures AccountedAt(c, states, labels, i)
  {
    StartAccounts(c, states, labels);
    forall k: nat | k < i && AccountedAt(c, states, labels, k) ensures AccountedAt(c, states, labels, k + 1) {
      RunAccountsNext(c, states, labels, k);
    }
    Always((k: nat) => AccountedAt(c, states, labels, k), i);
  }

  // Reads that leave a gap.

  /** The read skips an event lost before it: one ahead of the mark and before the event read. */
  ghost predicate Tears(c: Config, s: State, l: Label, lost: set<int>) {
    l == Take && s.queue != [] && s.queue[0].Change? && After(s.queue[0].cursor, Mark(c, s)) &&
    exists y | y in lost :: After(y, Mark(c, s)) && y < s.queue[0].cursor
  }

  lemma {:induction false} NextOwed(taken: seq<int>, rest: seq<int>, x: int)
    requires Increasing(rest) && x in rest
    ensures taken + [x] <= taken + rest <==> forall y | y in rest :: x <= y
  {
    var i :| 0 <= i < |rest| && rest[i] == x;
    if taken + [x] <= taken + rest {
      assert (taken + rest)[|taken|] == rest[0] == x;
    }
    if forall y | y in rest :: x <= y {
      assert rest[0] in rest && rest[0] == x;
    }
  }

  /** What is ahead of an unbroken mark is the rest of what is owed. */
  lemma {:induction false} RestIsOwed(c: Config, s: State, x: int)
    requires LogKept(c, s) && SentKept(c, s) && Unbroken(c, s) && Recorded(s.log, x)
    requires c.cursor.None? ==> After(x, c.floor)
    ensures
      var rest := Owed(s.log, Resumed(c.floor, Taken(s)));
      Owed(s.log, c.floor) == Taken(s) + rest && Increasing(rest) && (x in rest <==> After(x, Mark(c, s)))
  {
    OwedAfterReceived(s.log, c.floor, Taken(s));
    OwedIncreases(s.log, Resumed(c.floor, Taken(s)));
    OwedHas(s.log, Resumed(c.floor, Taken(s)), x);
  }

  lemma {:induction false} LostIsOwed(c: Config, s: State, lost: set<int>, y: int)
    requires LogKept(c, s) && SentKept(c, s) && Unbroken(c, s) && LostKept(c, s, lost) && y in lost
    ensures y in Owed(s.log, Resumed(c.floor, Taken(s))) <==> After(y, Mark(c, s))
  {
    RestIsOwed(c, s, y);
  }

  lemma {:induction false} SkippedIsLost(c: Config, s: State, lost: set<int>, y: int)
    requires Inv(c, s) && Unbroken(c, s) && Accounted(c, s, lost) && s.phase == Live && !s.out.ended
    requires s.queue != [] && s.queue[0].Change? && y < s.queue[0].cursor
    requires y in Owed(s.log, Resumed(c.floor, Taken(s)))
    ensures y in lost && After(y, Mark(c, s))
  {
    var rest := Owed(s.log, Resumed(c.floor, Taken(s)));
    OwedAfterReceived(s.log, c.floor, Taken(s));
    OwedHas(s.log, Resumed(c.floor, Taken(s)), y);
    OwedHas(s.log, c.floor, y);
    assert y in Taken(s) + rest;
    assert Placed(c, s, lost, y);
    RestIsOwed(c, s, y);
    TakenIsBehind(c, s, y);
    TailIncreases(s.queue);
    FirstQueued(c, s);
    UnpublishedIsLater(s, s.queue[0].cursor, y);
  }

  lemma {:induction false} TakenIsBehind(c: Config, s: State, y: int)
    requires SentKept(c, s)
    ensures y in Taken(s) ==> !After(y, Mark(c, s))
  {
    var taken := Taken(s);
    if y in taken {
      var i :| 0 <= i < |taken| && taken[i] == y;
      assert i < |taken| - 1 ==> taken[i] < taken[|taken| - 1];
    }
  }

  /** From an unbroken start, reading an event breaks it exactly when the read skips a lost one. */
  lemma {:induction false} ReadBreaksExactlyWhenItTears(c: Config, s: State, t: State, lost: set<int>)
    requires Inv(c, s) && Unbroken(c, s) && Accounted(c, s, lost) && Next(c, s, Take, t)
    ensures Unbroken(c, t) <==> !Tears(c, s, Take, lost)
  {
    LiveTaken(s);
    LiveTaken(t);
    if s.queue[0].Change? && After(s.queue[0].cursor, Mark(c, s)) {
      var x, rest := s.queue[0].cursor, Owed(s.log, Resumed(c.floor, Taken(s)));
      FirstQueued(c, s);
      RestIsOwed(c, s, x);
      NextOwed(Taken(s), rest, x);
      assert Taken(t) == Taken(s) + [x];
      if Tears(c, s, Take, lost) {
        var y :| y in lost && After(y, Mark(c, s)) && y < x;
        LostIsOwed(c, s, lost, y);
      }
      forall y | y in rest && y < x ensures Tears(c, s, Take, lost) {
        SkippedIsLost(c, s, lost, y);
      }
    } else {
      assert t.out.sent == s.out.sent;
    }
  }

  /** A start once broken stays broken. */
  lemma {:induction false} BrokenStays(c: Config, s: State, l: Label, t: State)
    requires Inv(c, s) && Next(c, s, l, t) && Unbroken(c, t)
    ensures Unbroken(c, s)
  {
    match l
    case Append(e) =>
      SameTaken(c, s, t);
      OwedGrows(s.log, e, c.floor);
      BeforeNewest(Taken(s), Owed(s.log, c.floor), e.cursor);
      forall x | x in Taken(s) ensures x != e.cursor {
        RecordedIsEarlier(s, e, x);
      }
    case Replay => assert Taken(s) == [];
    case SendReplayed => SendTakes(c, s, t);
    case Take =>
      LiveTaken(s);
      LiveTaken(t);
      assert s.out.sent <= t.out.sent;
    case _ => assert Taken(t) == Taken(s);
  }

  lemma {:induction false} BeforeNewest(taken: seq<int>, owed: seq<int>, newest: int)
    ensures taken <= owed + [newest] && newest !in taken ==> taken <= owed
  {
    if taken <= owed + [newest] && |taken| == |owed| + 1 {
      assert taken[|owed|] == newest;
    }
  }

  lemma {:induction false} OthersDoNotBreak(c: Config, s: State, l: Label, t: State)
    requires Inv(c, s) && Unbroken(c, s) && Next(c, s, l, t) && l != Take
    ensures Unbroken(c, t)
  {
    CalmStep(c, s, l, t);
  }

  lemma {:induction false} UnbrokenNext(c: Config, s: State, l: Label, t: State, lost: set<int>)
    requires Inv(c, s) && Accounted(c, s, lost) && Next(c, s, l, t)
    ensures Unbroken(c, t) <==> Unbroken(c, s) && !Tears(c, s, l, lost)
  {
    if Unbroken(c, t) {
      BrokenStays(c, s, l, t);
    }
    if Unbroken(c, s) {
      if l == Take {
        ReadBreaksExactlyWhenItTears(c, s, t, lost);
      } else {
        OthersDoNotBreak(c, s, l, t);
      }
    }
  }

  ghost predicate TearsAt(c: Config, states: seq<State>, labels: seq<Label>, j: nat)
    requires |states| == |labels| + 1
  {
    j < |labels| && Tears(c, states[j], labels[j], Lost(c, states, labels, j))
  }

  lemma {:induction false} UnbrokenAfter(c: Config, states: seq<State>, labels: seq<Label>, i: nat)
    requires Run(c, states, labels) && i < |labels|
    ensures Unbroken(c, states[i + 1]) <==> Unbroken(c, states[i]) && !TearsAt(c, states, labels, i)
  {
    RunKeeps(c, states, labels, i);
    RunAccounts(c, states, labels, i);
    UnbrokenNext(c, states[i], labels[i], states[i + 1], Lost(c, states, labels, i));
  }

  lemma {:induction false} RunStartsUnbroken(c: Config, states: seq<State>, labels: seq<Label>)
    requires Run(c, states, labels)
    ensures Unbroken(c, states[0])
  {
    InitUnbroken(c, states[0]);
  }

  lemma {:induction false} KeptUntilLost(kept: nat -> bool, lost: nat -> bool, i: nat)
    requires kept(0) && forall k: nat | k < i :: kept(k + 1) <==> kept(k) && !lost(k)
    ensures kept(i) <==> forall j: nat | j < i :: !lost(j)
  {
    if i > 0 {
      KeptUntilLost(kept, lost, i - 1);
      assert kept(i - 1 + 1) <==> kept(i - 1) && !lost(i - 1);
    }
  }

  /** In every run, what the client has received is unbroken exactly when no read has skipped a lost event. */
  lemma {:induction false} BrokenExactlyWhenTorn(c: Config, states: seq<State>, labels: seq<Label>, i: nat)
    requires Run(c, states, labels) && i < |states|
    ensures Unbroken(c, states[i]) <==> forall j: nat | j < i :: !TearsAt(c, states, labels, j)
  {
    var kept := (k: nat) => k < |states| && Unbroken(c, states[k]);
    var torn := (k: nat) => |states| == |labels| + 1 && TearsAt(c, states, labels, k);
    RunStartsUnbroken(c, states, labels);
    forall k: nat | k < i ensures kept(k + 1) <==> kept(k) && !torn(k) {
      UnbrokenAfter(c, states, labels, k);
    }
    KeptUntilLost(kept, torn, i);
    assert kept(i) <==> Unbroken(c, states[i]);
    assert forall j: nat | j < i :: torn(j) <==> TearsAt(c, states, labels, j);
  }

  lemma {:induction false} QueuedIsNotDoomed(s: State)
    requires HeadKept(s) && s.phase == Live && !s.out.ended && !s.draining && s.queue != [] && s.queue[0].Change?
    ensures !Doomed(s)
  {
  }

  lemma {:induction false} TearsWhileEmptying(c: Config, s: State, t: State, lost: set<int>)
    requires Inv(c, s) && Accounted(c, s, lost) && Next(c, s, Take, t) && Tears(c, s, Take, lost)
    ensures s.draining
  {
    if !s.draining {
      QueuedIsNotDoomed(s);
      PrefixOfPrefix(Taken(s), Taken(s) + Ahead(c, s), Owed(s.log, c.floor));
      CalmTake(c, s, t);
      ReadBreaksExactlyWhenItTears(c, s, t, lost);
    }
  }

  /** Such a read happens only while the dispatcher empties the queue. */
  lemma {:induction false} TearsOnlyWhileEmptying(c: Config, states: seq<State>, labels: seq<Label>, j: nat)
    requires Run(c, states, labels) && TearsAt(c, states, labels, j)
    ensures states[j].draining
  {
    RunAccounts(c, states, labels, j);
    RunKeeps(c, states, labels, j);
    TearsWhileEmptying(c, states[j], states[j + 1], Lost(c, states, labels, j));
  }
}
