/** Durable realtime events in cursor order, and the part of them a subscriber is owed. */
module RealtimeEvents {
  import opened Json

  /** `permitted` says whether the subscriber's scope may see the event. */
  datatype Event = Event(cursor: int, permitted: bool)

  datatype Delivery = Change(cursor: int) | Resync

  predicate After(cursor: int, last: Option<int>) {
    last.None? || cursor > last.value
  }

  predicate Ordered(log: seq<Event>) {
    forall i, j | 0 <= i < j < |log| :: log[i].cursor < log[j].cursor
  }

  predicate Increasing(cursors: seq<int>) {
    forall i, j | 0 <= i < j < |cursors| :: cursors[i] < cursors[j]
  }

  predicate Owes(e: Event, last: Option<int>) {
    e.permitted && After(e.cursor, last)
  }

  /** The cursors of the permitted events after `last`, in order. */
  function Owed(log: seq<Event>, last: Option<int>): seq<int> {
    if log == [] then []
    else
      var e := log[|log| - 1];
      Owed(log[..|log| - 1], last) + if Owes(e, last) then [e.cursor] else []
  }

  lemma {:induction false} OwedAppend(a: seq<Event>, b: seq<Event>, last: Option<int>)
    ensures Owed(a + b, last) == Owed(a, last) + Owed(b, last)
  {
    if b == [] {
      assert a + b == a;
    } else {
      var n := |b| - 1;
      assert (a + b)[..|a| + n] == a + b[..n];
      OwedAppend(a, b[..n], last);
    }
  }

  ghost predicate Recorded(log: seq<Event>, cursor: int) {
    exists i | 0 <= i < |log| :: log[i].permitted && log[i].cursor == cursor
  }

  lemma {:induction false} OwedHas(log: seq<Event>, last: Option<int>, cursor: int)
    ensures cursor in Owed(log, last) <==> Recorded(log, cursor) && After(cursor, last)
  {
    if log != [] {
      var n := |log| - 1;
      OwedHas(log[..n], last, cursor);
      if Recorded(log[..n], cursor) {
        var i :| 0 <= i < n && log[..n][i].permitted && log[..n][i].cursor == cursor;
        assert log[i].permitted && log[i].cursor == cursor;
      }
      if Recorded(log, cursor) {
        var i :| 0 <= i < |log| && log[i].permitted && log[i].cursor == cursor;
        if i < n {
          assert log[..n][i] == log[i];
        }
      }
    }
  }

  lemma {:induction false} OwedIncreases(log: seq<Event>, last: Option<int>)
    requires Ordered(log)
    ensures Increasing(Owed(log, last))
  {
    if log != [] {
      var n := |log| - 1;
      OwedIncreases(log[..n], last);
      var most := Owed(log[..n], last);
      forall k | 0 <= k < |most| ensures most[k] < log[n].cursor {
        assert most[k] in most;
        OwedHas(log[..n], last, most[k]);
      }
    }
  }

  /** Moving the mark past events that are not owed anyway, or below all of them, changes nothing. */
  lemma {:induction false} OwedSame(log: seq<Event>, a: Option<int>, b: Option<int>)
    requires forall e | e in log && e.permitted :: After(e.cursor, a) <==> After(e.cursor, b)
    ensures Owed(log, a) == Owed(log, b)
  {
    if log != [] {
      assert log[|log| - 1] in log;
      OwedSame(log[..|log| - 1], a, b);
    }
  }

  lemma {:induction false} OwedNone(log: seq<Event>, last: Option<int>)
    requires forall e | e in log :: !Owes(e, last)
    ensures Owed(log, last) == []
  {
    if log != [] {
      assert log[|log| - 1] in log;
      OwedNone(log[..|log| - 1], last);
    }
  }

  /** What has been received, and what is still owed after its last cursor, is all that was owed. */
  lemma {:induction false} OwedSplits(log: seq<Event>, floor: Option<int>, received: seq<int>)
    requires Ordered(log) && received != [] && received <= Owed(log, floor)
    ensures Owed(log, floor) == received + Owed(log, Some(received[|received| - 1]))
  {
    var n, last := |log| - 1, received[|received| - 1];
    var most := Owed(log[..n], floor);
    OwedHas(log, floor, last);
    if received <= most {
      OwedSplits(log[..n], floor, received);
      OwedHas(log[..n], floor, last);
    } else {
      assert last == log[n].cursor;
      OwedNone(log, Some(last));
    }
  }

  lemma {:induction false} OwedGrows(log: seq<Event>, e: Event, last: Option<int>)
    ensures Owed(log + [e], last) == Owed(log, last) + if Owes(e, last) then [e.cursor] else []
  {
  }
}
