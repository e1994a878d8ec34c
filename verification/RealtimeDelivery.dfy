/** What every run of a stream promises its client. */
module RealtimeDelivery {
  import opened Json
  import opened RealtimeEvents
  import opened RealtimeStream
  import opened RealtimeSplice

  lemma {:induction false} InitKeeps(c: Config, s: State)
    requires Init(c, s)
    ensures Inv(c, s)
  {
    assert Taken(s) == [] && Fresh([], None) == [] && Fresh([Resync], None) == [];
    InitLog(c, s);
    if c.cursor.None? && s.attached {
      InitBalances(c, s);
    }
  }

  lemma {:induction false} InitLog(c: Config, s: State)
    requires Init(c, s)
    ensures LogKept(c, s)
  {
  }

  lemma {:induction false} InitBalances(c: Config, s: State)
    requires Init(c, s) && LogKept(c, s) && c.cursor.None? && s.attached
    ensures InBalance(c, s)
  {
    InitOwed(c, s);
    assert Taken(s) == [] && Ahead(c, s) == [];
    BalancedEnds(s.attached, Owed(s.log, c.floor));
  }

  lemma {:induction false} InitOwed(c: Config, s: State)
    requires Init(c, s) && LogKept(c, s) && c.cursor.None?
    ensures Owed(s.log, c.floor) == Owed(s.log[s.published..], None)
  {
    forall e | e in s.log[..s.published] ensures !Owes(e, c.floor) {
      var i :| 0 <= i < s.published && s.log[i] == e;
    }
    OwedTail(s.log, s.published, c.floor);
  }

  lemma {:induction false} OwedTail(log: seq<Event>, n: nat, floor: Option<int>)
    requires n <= |log| && (forall e | e in log[..n] :: !Owes(e, floor)) && forall e | e in log[n..] :: After(e.cursor, floor)
    ensures Owed(log, floor) == Owed(log[n..], None)
  {
    assert log == log[..n] + log[n..];
    OwedAppend(log[..n], log[n..], floor);
    OwedNone(log[..n], floor);
    OwedSame(log[n..], floor, None);
  }

  lemma {:induction false} RunKeeps(c: Config, states: seq<State>, labels: seq<Label>, i: nat)
    requires Run(c, states, labels) && i < |states|
    ensures Inv(c, states[i])
  {
    if i == 0 {
      InitKeeps(c, states[0]);
    } else {
      RunKeeps(c, states, labels, i - 1);
      NextKeeps(c, states[i - 1], labels[i - 1], states[i]);
    }
  }

  lemma {:induction false} SentStartsTaken(s: State)
    ensures s.out.sent <= Taken(s)
  {
  }

  lemma {:induction false} PrefixOfPrefix(a: seq<int>, b: seq<int>, c: seq<int>)
    requires a <= b && b <= c
    ensures a <= c
  {
  }

  /** Whatever the interleaving: in order, without repeats, and only recorded events that the scope permits. */
  lemma {:induction false} ReceivedInOrder(c: Config, states: seq<State>, labels: seq<Label>, i: nat)
    requires Run(c, states, labels) && i < |states|
    ensures Increasing(states[i].out.sent)
    ensures forall x | x in states[i].out.sent :: x in Owed(states[i].log, c.floor)
  {
    var s := states[i];
    RunKeeps(c, states, labels, i);
    SentStartsTaken(s);
    PrefixIncreases(s.out.sent, Taken(s));
    forall x | x in s.out.sent ensures x in Owed(s.log, c.floor) {
      OwedHas(s.log, c.floor, x);
    }
  }

  /** Without a resynchronisation sent or under way, the client has an unbroken start of what it is owed. */
  lemma {:induction false} UnbrokenUnlessDoomed(c: Config, states: seq<State>, labels: seq<Label>, i: nat)
    requires Run(c, states, labels) && i < |states| && !Doomed(states[i])
    ensures states[i].out.sent <= Owed(states[i].log, c.floor)
  {
    var s := states[i];
    RunKeeps(c, states, labels, i);
    SentStartsTaken(s);
    if Spliced(s) {
      PrefixOfPrefix(Taken(s), Taken(s) + Ahead(c, s), Owed(s.log, c.floor));
      PrefixOfPrefix(s.out.sent, Taken(s), Owed(s.log, c.floor));
    }
  }

  /** Once the stream has caught up with the dispatcher and the dispatcher with the log, nothing is missing. */
  lemma {:induction false} CaughtUpIsComplete(c: Config, states: seq<State>, labels: seq<Label>, i: nat)
    requires Run(c, states, labels) && i < |states| && !Doomed(states[i]) && states[i].attached
    requires states[i].phase == Live && states[i].queue == [] && states[i].published == |states[i].log|
    ensures states[i].out.sent == Owed(states[i].log, c.floor)
  {
    var s := states[i];
    RunKeeps(c, states, labels, i);
    LiveTaken(s);
    assert s.log[s.published..] == [];
    assert Taken(s) + [] + [] == Taken(s);
  }

  /** What the client has received is the generator's filter applied to all that it has read. */
  lemma {:induction false} StreamIsFiltered(c: Config, states: seq<State>, labels: seq<Label>, i: nat)
    requires Run(c, states, labels) && i < |states|
    ensures states[i].out == HandleAll(Opened(c.cursor), states[i].handled)
  {
    RunKeeps(c, states, labels, i);
  }

  // Runs that never read the queue while it is being emptied.

  ghost predicate Unbroken(c: Config, s: State) {
    Taken(s) <= Owed(s.log, c.floor)
  }

  lemma {:induction false} CalmStep(c: Config, s: State, l: Label, t: State)
    requires Inv(c, s) && Unbroken(c, s) && Next(c, s, l, t) && (l == Take ==> !s.draining)
    ensures Unbroken(c, t)
  {
    match l
    case Append(e) =>
      OwedGrows(s.log, e, c.floor);
      SameTaken(c, s, t);
    case Replay =>
      if t.phase.Replaying? && c.cursor.Some? {
        ReplayTakes(c, s, t);
      } else {
        assert Taken(t) == Taken(s);
      }
    case SendReplayed => SendTakes(c, s, t);
    case GoLive => assert Taken(t) == Taken(s);
    case Take => CalmTake(c, s, t);
    case _ => SameTaken(c, s, t);
  }

  lemma {:induction false} CalmTake(c: Config, s: State, t: State)
    requires Inv(c, s) && Unbroken(c, s) && Next(c, s, Take, t) && !s.draining
    ensures Unbroken(c, t)
  {
    LiveTaken(s);
    LiveTaken(t);
    if s.queue[0].Change? {
      assert !Doomed(s);
      TakeBalances(c, s, t);
      PrefixOfPrefix(Taken(t), Taken(t) + Ahead(c, t), Owed(t.log, c.floor));
    }
  }

  lemma {:induction false} InitUnbroken(c: Config, s: State)
    requires Init(c, s)
    ensures Unbroken(c, s)
  {
    assert Taken(s) == [];
  }

  lemma {:induction false} CalmRunKeeps(c: Config, states: seq<State>, labels: seq<Label>, i: nat)
    requires Run(c, states, labels) && Calm(states, labels) && i < |states|
    ensures Unbroken(c, states[i])
  {
    if i == 0 {
      InitUnbroken(c, states[0]);
    } else {
      RunKeeps(c, states, labels, i - 1);
      CalmRunKeeps(c, states, labels, i - 1);
      CalmStep(c, states[i - 1], labels[i - 1], states[i]);
    }
  }

  /** In calm runs the client never sees a gap, not even on the way to a resynchronisation. */
  lemma {:induction false} CalmRunsHaveNoGap(c: Config, states: seq<State>, labels: seq<Label>, i: nat)
    requires Run(c, states, labels) && Calm(states, labels) && i < |states|
    ensures states[i].out.sent <= Owed(states[i].log, c.floor)
  {
    CalmRunKeeps(c, states, labels, i);
    SentStartsTaken(states[i]);
    PrefixOfPrefix(states[i].out.sent, Taken(states[i]), Owed(states[i].log, c.floor));
  }

  // Reconnecting.

  /** Streams of one client, each opened with the last cursor the one before it delivered. */
  ghost predicate Reconnected(floors: seq<Option<int>>, received: seq<seq<int>>) {
    |floors| == |received| && |floors| > 0 &&
    forall i | 0 < i < |floors| :: floors[i] == Resumed(floors[i - 1], received[i - 1])
  }

  function Resumed(floor: Option<int>, received: seq<int>): Option<int> {
    if received == [] then floor else Some(received[|received| - 1])
  }

  function Concat(received: seq<seq<int>>): seq<int> {
    if received == [] then [] else Concat(received[..|received| - 1]) + received[|received| - 1]
  }

  lemma {:induction false} OwedAfterReceived(log: seq<Event>, floor: Option<int>, received: seq<int>)
    requires Ordered(log) && received <= Owed(log, floor)
    ensures Owed(log, floor) == received + Owed(log, Resumed(floor, received))
  {
    if received != [] {
      OwedSplits(log, floor, received);
    }
  }

  lemma {:induction false} OwedExtends(log: seq<Event>, later: seq<Event>, floor: Option<int>)
    requires log <= later
    ensures Owed(log, floor) <= Owed(later, floor)
  {
    assert later == log + later[|log|..];
    OwedAppend(log, later[|log|..], floor);
  }

  lemma {:induction false} Composed(log: seq<Event>, floors: seq<Option<int>>, received: seq<seq<int>>)
    requires Reconnected(floors, received) && Ordered(log)
    requires forall i | 0 <= i < |floors| :: received[i] <= Owed(log, floors[i])
    ensures
      var n := |floors| - 1;
      Owed(log, floors[0]) == Concat(received) + Owed(log, Resumed(floors[n], received[n]))
  {
    var n := |floors| - 1;
    OwedAfterReceived(log, floors[n], received[n]);
    if n == 0 {
      assert Concat(received[..0]) == [];
    } else {
      Composed(log, floors[..n], received[..n]);
      ConcatAssociates(received, Owed(log, Resumed(floors[n], received[n])));
    }
  }

  lemma {:induction false} ConcatAssociates(received: seq<seq<int>>, rest: seq<int>)
    requires received != []
    ensures
      var n := |received| - 1;
      Concat(received) + rest == Concat(received[..n]) + (received[n] + rest)
  {
  }

  lemma {:induction false} ReceivedCompose(
    floors: seq<Option<int>>, received: seq<seq<int>>, logs: seq<seq<Event>>, log: seq<Event>)
    requires Reconnected(floors, received) && |logs| == |floors| && Ordered(log)
    requires forall i | 0 <= i < |logs| :: logs[i] <= log && received[i] <= Owed(logs[i], floors[i])
    ensures
      var n := |floors| - 1;
      Owed(log, floors[0]) == Concat(received) + Owed(log, Resumed(floors[n], received[n]))
  {
    forall i | 0 <= i < |logs| ensures received[i] <= Owed(log, floors[i]) {
      OwedExtends(logs[i], log, floors[i]);
      PrefixOfPrefix(received[i], Owed(logs[i], floors[i]), Owed(log, floors[i]));
    }
    Composed(log, floors, received);
  }

  /** One stream of the client, from its subscription to its end. */
  datatype Connection = Connection(c: Config, states: seq<State>, labels: seq<Label>)

  ghost predicate Connected(x: Connection) {
    Run(x.c, x.states, x.labels)
  }

  function Ending(x: Connection): State
    requires x.states != []
  {
    x.states[|x.states| - 1]
  }

  /** The stream was never read while its queue was emptied, or ends without a resynchronisation under way. */
  ghost predicate Served(x: Connection) {
    Connected(x) && (Calm(x.states, x.labels) || !Doomed(Ending(x)))
  }

  /** The client comes back with the last cursor it received, or with the one it had. */
  ghost predicate Resumes(x: Connection, y: Connection) {
    x.states != [] &&
    var sent := Ending(x).out.sent;
    if sent == [] then x.c.cursor.Some? && y.c.cursor == x.c.cursor else y.c.cursor == Some(sent[|sent| - 1])
  }

  lemma {:induction false} ServedIsUnbroken(x: Connection)
    requires Served(x)
    ensures Ending(x).out.sent <= Owed(Ending(x).log, x.c.floor)
    ensures x.c.cursor.Some? ==> x.c.floor == x.c.cursor
  {
    var n := |x.states| - 1;
    RunKeeps(x.c, x.states, x.labels, n);
    if Calm(x.states, x.labels) {
      CalmRunsHaveNoGap(x.c, x.states, x.labels, n);
    } else {
      UnbrokenUnlessDoomed(x.c, x.states, x.labels, n);
    }
  }

  function Floors(xs: seq<Connection>): (r: seq<Option<int>>)
    ensures |r| == |xs| && forall i | 0 <= i < |r| :: r[i] == xs[i].c.floor
  {
    seq(|xs|, i requires 0 <= i < |xs| => xs[i].c.floor)
  }

  function Received(xs: seq<Connection>): (r: seq<seq<int>>)
    requires forall x | x in xs :: x.states != []
    ensures |r| == |xs| && forall i | 0 <= i < |r| :: r[i] == Ending(xs[i]).out.sent
  {
    seq(|xs|, i requires 0 <= i < |xs| => Ending(xs[i]).out.sent)
  }

  function Logs(xs: seq<Connection>): (r: seq<seq<Event>>)
    requires forall x | x in xs :: x.states != []
    ensures |r| == |xs| && forall i | 0 <= i < |r| :: r[i] == Ending(xs[i]).log
  {
    seq(|xs|, i requires 0 <= i < |xs| => Ending(xs[i]).log)
  }

  lemma {:induction false} ResumesAtFloor(x: Connection, y: Connection)
    requires Served(x) && Served(y) && Resumes(x, y)
    ensures y.c.floor == Resumed(x.c.floor, Ending(x).out.sent)
  {
    ServedIsUnbroken(x);
    ServedIsUnbroken(y);
  }

  /**
   However often a client reconnects, what the runs of its streams delivered, put together, is what
   one unbroken stream from its first cursor owed it: no gap and no repeat.
   */
  lemma {:induction false} ReconnectsCompose(xs: seq<Connection>, log: seq<Event>)
    requires xs != [] && forall x | x in xs :: x.states != []
    requires Ordered(log) && forall x | x in xs :: Served(x) && Ending(x).log <= log
    requires forall i | 0 < i < |xs| :: Resumes(xs[i - 1], xs[i])
    ensures
      var last := xs[|xs| - 1];
      Owed(log, xs[0].c.floor) == Concat(Received(xs)) + Owed(log, Resumed(last.c.floor, Ending(last).out.sent))
  {
    forall i | 0 <= i < |xs| ensures Received(xs)[i] <= Owed(Logs(xs)[i], Floors(xs)[i]) && Logs(xs)[i] <= log {
      assert xs[i] in xs;
      ServedIsUnbroken(xs[i]);
    }
    forall i | 0 < i < |xs| ensures Floors(xs)[i] == Resumed(Floors(xs)[i - 1], Received(xs)[i - 1]) {
      assert xs[i] in xs && xs[i - 1] in xs;
      ResumesAtFloor(xs[i - 1], xs[i]);
    }
    ReceivedCompose(Floors(xs), Received(xs), Logs(xs), log);
  }

  // The gap that a read in the middle of emptying the queue leaves.

  ghost predicate Reachable(c: Config, s: State) {
    exists states, labels :: Run(c, states, labels) && states[|states| - 1] == s
  }

  lemma {:induction false} Reach(c: Config, s: State, l: Label, t: State)
    requires Reachable(c, s) && Next(c, s, l, t)
    ensures Reachable(c, t)
  {
    var states, labels :| Run(c, states, labels) && states[|states| - 1] == s;
    var more, path := states + [t], labels + [l];
    assert Run(c, more, path) && more[|more| - 1] == t;
  }

  lemma {:induction false} ReachInit(c: Config, s: State)
    requires Init(c, s)
    ensures Reachable(c, s)
  {
    assert Run(c, [s], []) && [s][|[s]| - 1] == s;
  }

  /** A subscriber without a cursor whose queue of two meets three events at once. */
  function Overrun(log: seq<Event>, published: nat, queue: seq<Delivery>, latest: Option<int>, draining: bool): State {
    State(log, published, true, latest, queue, draining, Live, Opened(None), [])
  }

  lemma {:induction false} OverrunIsReachable(c: Config, log: seq<Event>)
    requires log == [Event(1, true), Event(2, true), Event(3, true)] && c == Config(2, 10, None, None)
    ensures Reachable(c, Overrun(log, 3, [Change(1), Change(2)], Some(3), true))
  {
    var start := State(log, 0, true, None, [], false, Subscribed, Opened(None), []);
    ReachInit(c, start);
    Reach(c, start, Replay, start.(phase := Replaying([])));
    Reach(c, start.(phase := Replaying([])), GoLive, Overrun(log, 0, [], None, false));
    Reach(c, Overrun(log, 0, [], None, false), Publish, Overrun(log, 1, [Change(1)], Some(1), false));
    Reach(c, Overrun(log, 1, [Change(1)], Some(1), false), Publish, Overrun(log, 2, [Change(1), Change(2)], Some(2), false));
    Reach(
      c, Overrun(log, 2, [Change(1), Change(2)], Some(2), false), Publish,
      Overrun(log, 3, [Change(1), Change(2)], Some(3), true));
  }

  /**
   Outside calm runs there may be a gap: the queue loses its first event, the stream reads the
   second before the rest is gone, and the client receives the second without the first.
   */
  lemma {:induction false} ReadWhileEmptyingSkips(c: Config, log: seq<Event>)
    requires log == [Event(1, true), Event(2, true), Event(3, true)] && c == Config(2, 10, None, None)
    ensures exists s :: Reachable(c, s) && s.log == log && s.out.sent == [2] && 1 in Owed(log, c.floor)
  {
    var full := Overrun(log, 3, [Change(1), Change(2)], Some(3), true);
    OverrunIsReachable(c, log);
    assert full.queue[1..] == [Change(2)];
    Reach(c, full, Drop, full.(queue := [Change(2)]));
    var read := Read(full.(queue := []), Change(2));
    assert [Change(2)][1..] == [];
    Reach(c, full.(queue := [Change(2)]), Take, read);
    assert log[0].permitted && log[0].cursor == 1;
    OwedHas(log, c.floor, 1);
    assert read.out.sent == [2] && read.log == log;
  }
}
