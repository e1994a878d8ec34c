/** Every run of the upload capability, the completers, generated content and deletion together. */
module EvidenceSystem {
  import opened Json
  import opened EvidenceKeys
  import opened EvidenceStorage

  /** The size and media type each evidence record registered. */
  datatype Registration = Registration(mediaType: string, size: int)
  type Registry = Evidence -> Registration

  datatype Run = Run(checksum: string, pc: Pc)

  /** What a successful call has promised about a key, until the key is deleted. */
  datatype Promise = Promise(checksum: string, content: Object)

  datatype System = System(
    store: Store, running: map<Evidence, Run>, promised: map<Key, Promise>)

  datatype Action =
    | Upload(e: Evidence, content: Object)
    | Generate(e: Evidence, content: Object)
    | Start(e: Evidence, checksum: string)
    | Advance(e: Evidence)
    | Abandon(e: Evidence)
    | Delete(key: Key)

  datatype World = World(sha: Hash, registry: Registry)

  function DemandOf(w: World, e: Evidence, checksum: string): Demand {
    Demand(checksum, w.registry(e).mediaType, w.registry(e).size)
  }

  /** One completer per evidence record; any final key may be deleted at any time. */
  predicate Enabled(s: System, a: Action) {
    match a
    case Upload(_, _) => true
    case Generate(_, _) => true
    case Start(e, _) => e !in s.running || s.running[e].pc.Finished?
    case Advance(e) => e in s.running && !s.running[e].pc.Finished?
    case Abandon(e) => e in s.running
    case Delete(key) => key.Finalised?
  }

  function Advanced(w: World, s: System, e: Evidence): System
    requires e in s.running
  {
    var run := s.running[e];
    var p := Step(w.sha, e, DemandOf(w, e, run.checksum), Point(s.store, run.pc));
    var promised :=
      if p.pc.Finished? && p.pc.outcome.Stored? && p.pc.outcome.key in p.store then
        s.promised[p.pc.outcome.key := Promise(p.pc.outcome.checksum, p.store[p.pc.outcome.key])]
      else s.promised;
    System(p.store, s.running[e := run.(pc := p.pc)], promised)
  }

  function Next(w: World, s: System, a: Action): System
    requires Enabled(s, a)
  {
    match a
    case Upload(e, o) => s.(store := s.store[Staging(e) := o])
    case Generate(e, o) => s.(store := s.store[Finalised(e, GENERATED) := o])
    case Start(e, checksum) => s.(running := s.running[e := Run(checksum, Begin(s.store, checksum).pc)])
    case Advance(e) => Advanced(w, s, e)
    case Abandon(e) => s.(running := s.running - {e})
    case Delete(key) => s.(store := s.store - {key}, promised := s.promised - {key})
  }

  /** The object is the registered upload of the key's owner, and hashes to the checksum. */
  predicate Kept(w: World, s: System, key: Key, p: Promise) {
    key.Finalised? && key in s.store && s.store[key] == p.content &&
    Lower(p.checksum) == p.checksum && Digest(DigestOf(p.checksum)) && key == FinalKey(key.owner, p.checksum) &&
    Matches(w.sha, key.owner, DemandOf(w, key.owner, p.checksum), p.content)
  }

  predicate Copying(pc: Pc) {
    pc.Copy? || pc.Reverify? || pc.DropStaging?
  }

  predicate RunSound(w: World, s: System, e: Evidence, r: Run) {
    var final := FinalKey(e, r.checksum);
    (!r.pc.Finished? ==> Digest(DigestOf(r.checksum))) &&
    (Copying(r.pc) ==> final !in s.promised) &&
    (r.pc.VerifyStaging? && SCHEME <= Lower(r.checksum) ==> final !in s.promised) &&
    (r.pc.DropStaging? && final in s.store ==> Holds(w.sha, s.store, final, e, DemandOf(w, e, r.checksum)))
  }

  ghost predicate Sound(w: World, s: System) {
    (forall key | key in s.promised :: Kept(w, s, key, s.promised[key])) &&
    (forall e | e in s.running :: RunSound(w, s, e, s.running[e]))
  }

  lemma {:induction false} CanonicalChecksum(w: World, e: Evidence, checksum: string, o: Object)
    requires Matches(w.sha, e, DemandOf(w, e, checksum), o)
    ensures Lower(Lower(checksum)) == Lower(checksum)
    ensures FinalKey(e, Lower(checksum)) == Finalised(e, w.sha(o.body)) && Digest(DigestOf(Lower(checksum)))
    ensures Matches(w.sha, e, DemandOf(w, e, Lower(checksum)), o)
  {
    CanonicalDigest(w.sha(o.body));
  }

  /** A checksum with a capital scheme names no digest, so the key of a good one is its digest's. */
  lemma {:induction false} FinalKeyOfMatch(w: World, e: Evidence, checksum: string, o: Object)
    requires Digest(DigestOf(checksum)) && Matches(w.sha, e, DemandOf(w, e, checksum), o)
    ensures FinalKey(e, checksum) == FinalKey(e, Lower(checksum))
  {
  }

  lemma {:induction false} SchemedChecksum(checksum: string)
    requires Digest(DigestOf(checksum)) && SCHEME <= Lower(checksum)
    ensures SCHEME <= checksum && Lower(checksum) == SCHEME + DigestOf(checksum)
  {
    assert Lower(checksum)[6] == SCHEME[6] == ':';
    assert forall i | 0 <= i < |DigestOf(checksum)| :: DigestOf(checksum)[i] in DigestOf(checksum);
    if SCHEME <= checksum {
      assert Lower(checksum)[..|SCHEME|] == SCHEME;
      assert Lower(checksum)[|SCHEME|..] == Lower(checksum[|SCHEME|..]);
    }
  }

  /** A call that reports the digest of a promised key recovers it, and never reaches the copy. */
  lemma {:induction false} PromisedIsRecovered(w: World, s: System, e: Evidence, checksum: string)
    requires Digest(DigestOf(checksum)) && SCHEME <= Lower(checksum)
    requires FinalKey(e, checksum) in s.promised
    requires Kept(w, s, FinalKey(e, checksum), s.promised[FinalKey(e, checksum)])
    ensures Holds(w.sha, s.store, FinalKey(e, checksum), e, DemandOf(w, e, checksum))
    ensures Lower(checksum) == s.promised[FinalKey(e, checksum)].checksum
  {
    var p := s.promised[FinalKey(e, checksum)];
    CanonicalChecksum(w, e, p.checksum, p.content);
    SchemedChecksum(checksum);
    SchemedChecksum(p.checksum);
  }

  lemma {:induction false} StoredIsKept(w: World, e: Evidence, checksum: string, t: System)
    requires Digest(DigestOf(checksum))
    requires Holds(w.sha, t.store, FinalKey(e, checksum), e, DemandOf(w, e, checksum))
    ensures Kept(w, t, FinalKey(e, checksum), Promise(Lower(checksum), t.store[FinalKey(e, checksum)]))
  {
    var o := t.store[FinalKey(e, checksum)];
    CanonicalChecksum(w, e, checksum, o);
    FinalKeyOfMatch(w, e, checksum, o);
  }

  /** A step touches the staging key and, at the copy, the unpromised final key of its own record. */
  lemma {:induction false} AdvanceTouches(w: World, s: System, e: Evidence, key: Key)
    requires Enabled(s, Advance(e)) && key != Staging(e)
    requires s.running[e].pc.Copy? ==> key != FinalKey(e, s.running[e].checksum)
    ensures key in Advanced(w, s, e).store <==> key in s.store
    ensures key in s.store ==> Advanced(w, s, e).store[key] == s.store[key]
  {
  }

  lemma {:induction false} AdvanceFinishes(w: World, s: System, e: Evidence)
    requires Enabled(s, Advance(e)) && RunSound(w, s, e, s.running[e])
    ensures var t, final := Advanced(w, s, e), FinalKey(e, s.running[e].checksum);
      t.promised == s.promised ||
      (t.running[e].pc == Finished(Stored(final, Lower(s.running[e].checksum))) &&
       Holds(w.sha, t.store, final, e, DemandOf(w, e, s.running[e].checksum)) &&
       t.promised == s.promised[final := Promise(Lower(s.running[e].checksum), t.store[final])])
  {
  }

  lemma {:induction false} AdvanceKeepsPromises(w: World, s: System, e: Evidence, key: Key)
    requires Sound(w, s) && Enabled(s, Advance(e)) && key in Advanced(w, s, e).promised
    ensures Kept(w, Advanced(w, s, e), key, Advanced(w, s, e).promised[key])
  {
    var t, final := Advanced(w, s, e), FinalKey(e, s.running[e].checksum);
    assert RunSound(w, s, e, s.running[e]);
    AdvanceFinishes(w, s, e);
    if t.promised != s.promised && key == final {
      StoredIsKept(w, e, s.running[e].checksum, t);
    } else {
      assert Kept(w, s, key, s.promised[key]);
      AdvanceTouches(w, s, e, key);
    }
  }

  lemma {:induction false} AdvanceKeepsOwnRun(w: World, s: System, e: Evidence)
    requires Sound(w, s) && Enabled(s, Advance(e))
    ensures RunSound(w, Advanced(w, s, e), e, Advanced(w, s, e).running[e])
  {
    var run := s.running[e];
    var final := FinalKey(e, run.checksum);
    assert RunSound(w, s, e, run);
    AdvanceFinishes(w, s, e);
    if run.pc.Recover? && final in s.promised && SCHEME <= Lower(run.checksum) {
      assert Kept(w, s, final, s.promised[final]);
      PromisedIsRecovered(w, s, e, run.checksum);
    }
  }

  lemma {:induction false} AdvanceKeepsOtherRuns(w: World, s: System, e: Evidence, f: Evidence)
    requires Sound(w, s) && Enabled(s, Advance(e)) && f in s.running && f != e
    ensures RunSound(w, Advanced(w, s, e), f, s.running[f])
  {
    var final := FinalKey(f, s.running[f].checksum);
    assert RunSound(w, s, f, s.running[f]) && RunSound(w, s, e, s.running[e]);
    AdvanceFinishes(w, s, e);
    AdvanceTouches(w, s, e, final);
  }

  lemma {:induction false} AdvanceIsSound(w: World, s: System, e: Evidence)
    requires Sound(w, s) && Enabled(s, Advance(e))
    ensures Sound(w, Advanced(w, s, e))
  {
    var t := Advanced(w, s, e);
    forall key | key in t.promised ensures Kept(w, t, key, t.promised[key]) {
      AdvanceKeepsPromises(w, s, e, key);
    }
    forall f | f in t.running ensures RunSound(w, t, f, t.running[f]) {
      if f == e { AdvanceKeepsOwnRun(w, s, e); } else { AdvanceKeepsOtherRuns(w, s, e, f); }
    }
  }

  lemma {:induction false} OtherKeepsPromise(w: World, s: System, a: Action, key: Key)
    requires Sound(w, s) && Enabled(s, a) && !a.Advance? && key in Next(w, s, a).promised
    ensures Kept(w, Next(w, s, a), key, Next(w, s, a).promised[key])
  {
    assert Kept(w, s, key, s.promised[key]);
    GeneratedIsNoDigest(s.promised[key].checksum);
  }

  lemma {:induction false} OtherKeepsRun(w: World, s: System, a: Action, e: Evidence)
    requires Sound(w, s) && Enabled(s, a) && !a.Advance? && e in Next(w, s, a).running
    ensures RunSound(w, Next(w, s, a), e, Next(w, s, a).running[e])
  {
    if !(a.Start? && a.e == e) {
      assert RunSound(w, s, e, s.running[e]);
      if a.Generate? && s.running[e].pc.DropStaging? { GeneratedIsNoDigest(s.running[e].checksum); }
    }
  }

  lemma {:induction false} OtherIsSound(w: World, s: System, a: Action)
    requires Sound(w, s) && Enabled(s, a) && !a.Advance?
    ensures Sound(w, Next(w, s, a))
  {
    forall key | key in Next(w, s, a).promised { OtherKeepsPromise(w, s, a, key); }
    forall e | e in Next(w, s, a).running { OtherKeepsRun(w, s, a, e); }
  }

  // Whole runs.

  ghost predicate Reaches(w: World, s: System, actions: seq<Action>, t: System)
    decreases |actions|
  {
    if actions == [] then s == t
    else Enabled(s, actions[0]) && Reaches(w, Next(w, s, actions[0]), actions[1..], t)
  }

  lemma {:induction false} RunsAreSound(w: World, s: System, actions: seq<Action>, t: System)
    requires Sound(w, s) && Reaches(w, s, actions, t)
    ensures Sound(w, t)
    decreases |actions|
  {
    if actions != [] {
      if actions[0].Advance? { AdvanceIsSound(w, s, actions[0].e); } else { OtherIsSound(w, s, actions[0]); }
      RunsAreSound(w, Next(w, s, actions[0]), actions[1..], t);
    }
  }

  /** A later completion of the same upload recovers the promised object; it does not replace it. */
  lemma {:induction false} StepKeepsPromise(w: World, s: System, a: Action, key: Key)
    requires Sound(w, s) && Enabled(s, a) && key in s.promised && a != Delete(key)
    ensures key in Next(w, s, a).promised && Next(w, s, a).promised[key] == s.promised[key]
  {
    if a.Advance? {
      var run := s.running[a.e];
      assert RunSound(w, s, a.e, run) && Kept(w, s, key, s.promised[key]);
      AdvanceFinishes(w, s, a.e);
      if run.pc.Recover? && key == FinalKey(a.e, run.checksum) && SCHEME <= Lower(run.checksum) {
        PromisedIsRecovered(w, s, a.e, run.checksum);
      }
    }
  }

  lemma {:induction false} RunsKeepPromises(w: World, s: System, actions: seq<Action>, t: System, key: Key)
    requires Sound(w, s) && Reaches(w, s, actions, t) && key in s.promised && Delete(key) !in actions
    ensures key in t.promised && t.promised[key] == s.promised[key]
    decreases |actions|
  {
    if actions != [] {
      StepKeepsPromise(w, s, actions[0], key);
      if actions[0].Advance? { AdvanceIsSound(w, s, actions[0].e); } else { OtherIsSound(w, s, actions[0]); }
      RunsKeepPromises(w, Next(w, s, actions[0]), actions[1..], t, key);
    }
  }

  /** The returned key holds the registered upload of its owner, hashing to the returned checksum. */
  predicate Finalises(w: World, store: Store, e: Evidence, key: Key, checksum: string) {
    key.Finalised? && key.owner == e && key in store &&
    Described(e, DemandOf(w, e, checksum), store[key]) &&
    |store[key].body| == w.registry(e).size <= MAX_UPLOAD_SIZE_BYTES &&
    checksum == SCHEME + w.sha(store[key].body) &&
    key.name == w.sha(store[key].body)
  }

  /** What has happened since the last step of the call for `e`. */
  function Since(actions: seq<Action>, e: Evidence): seq<Action> {
    if actions == [] || actions[|actions| - 1] == Advance(e) then []
    else Since(actions[..|actions| - 1], e) + [actions[|actions| - 1]]
  }

  lemma {:induction false} ReachesLast(w: World, s: System, actions: seq<Action>, t: System) returns (u: System)
    requires actions != [] && Reaches(w, s, actions, t)
    ensures var n := |actions| - 1;
      Reaches(w, s, actions[..n], u) && Enabled(u, actions[n]) && t == Next(w, u, actions[n])
    decreases |actions|
  {
    if |actions| == 1 {
      u := s;
    } else {
      u := ReachesLast(w, Next(w, s, actions[0]), actions[1..], t);
      var n := |actions| - 1;
      assert actions[1..][..n - 1] == actions[..n][1..];
    }
  }

  /** While a call waits to drop its staged object, nothing but a deletion removes what it has checked. */
  lemma {:induction false} OthersKeepChecked(w: World, s: System, a: Action, e: Evidence)
    requires Sound(w, s) && Enabled(s, a) && a != Advance(e)
    requires e in Next(w, s, a).running && Next(w, s, a).running[e].pc.DropStaging?
    ensures e in s.running && s.running[e] == Next(w, s, a).running[e]
    ensures var key := FinalKey(e, s.running[e].checksum);
      key in Next(w, s, a).store <==> key in s.store && a != Delete(key)
  {
    if a.Advance? {
      AdvanceTouches(w, s, a.e, FinalKey(e, s.running[e].checksum));
    } else if a.Generate? {
      assert RunSound(w, s, e, s.running[e]);
      GeneratedIsNoDigest(s.running[e].checksum);
    }
  }

  lemma {:induction false} CheckedUntilDeleted(
    w: World, store: Store, actions: seq<Action>, s: System, e: Evidence)
    requires Reaches(w, System(store, map[], map[]), actions, s)
    requires e in s.running && s.running[e].pc.DropStaging?
    ensures FinalKey(e, s.running[e].checksum) in s.store <==> Delete(FinalKey(e, s.running[e].checksum)) !in Since(actions, e)
    decreases |actions|
  {
    var u := ReachesLast(w, System(store, map[], map[]), actions, s);
    var n := |actions| - 1;
    if actions[n] == Advance(e) {
      CheckedByStep(w, u, e);
    } else {
      RunsAreSound(w, System(store, map[], map[]), actions[..n], u);
      OthersKeepChecked(w, u, actions[n], e);
      CheckedUntilDeleted(w, store, actions[..n], u, e);
    }
  }

  lemma {:induction false} CheckedByStep(w: World, s: System, e: Evidence)
    requires Enabled(s, Advance(e)) && Advanced(w, s, e).running[e].pc.DropStaging?
    ensures FinalKey(e, s.running[e].checksum) in Advanced(w, s, e).store
    ensures Advanced(w, s, e).running[e].checksum == s.running[e].checksum
  {
  }

  /**
   From any store, in any interleaving: the final object that a successful call names is there exactly
   when its key was not deleted between the call's last check and its end. It is then the registered
   upload, and stays what it is until its key is deleted.
   */
  lemma {:induction false} CompletionIsLasting(
    w: World, store: Store, before: seq<Action>, s: System, e: Evidence, after: seq<Action>, t: System)
    requires Reaches(w, System(store, map[], map[]), before, s)
    requires Enabled(s, Advance(e)) && Advanced(w, s, e).running[e].pc.Finished?
    requires Advanced(w, s, e).running[e].pc.outcome.Stored?
    requires Reaches(w, Advanced(w, s, e), after, t)
    ensures var done := Advanced(w, s, e);
      var r := done.running[e].pc.outcome;
      (r.key in done.store <==> s.running[e].pc.Recover? || Delete(r.key) !in Since(before, e)) &&
      (r.key in done.store ==> Finalises(w, done.store, e, r.key, r.checksum)) &&
      (r.key in done.store && Delete(r.key) !in after ==> r.key in t.store && t.store[r.key] == done.store[r.key])
  {
    RunsAreSound(w, System(store, map[], map[]), before, s);
    AdvanceIsSound(w, s, e);
    var done := Advanced(w, s, e);
    var r := done.running[e].pc.outcome;
    StoredIsPromised(w, s, e);
    if s.running[e].pc.DropStaging? {
      CheckedUntilDeleted(w, store, before, s, e);
    }
    if r.key in done.store {
      assert Kept(w, done, r.key, done.promised[r.key]);
      CanonicalChecksum(w, e, r.checksum, done.store[r.key]);
      if Delete(r.key) !in after {
        RunsKeepPromises(w, done, after, t, r.key);
        RunsAreSound(w, done, after, t);
        assert Kept(w, t, r.key, t.promised[r.key]);
      }
    }
  }

  lemma {:induction false} StoredIsPromised(w: World, s: System, e: Evidence)
    requires Sound(w, s) && Enabled(s, Advance(e))
    requires Advanced(w, s, e).running[e].pc.Finished? && Advanced(w, s, e).running[e].pc.outcome.Stored?
    ensures s.running[e].pc.Recover? || s.running[e].pc.DropStaging?
    ensures var t := Advanced(w, s, e);
      var r := t.running[e].pc.outcome;
      r.key == FinalKey(e, s.running[e].checksum) && (r.key in t.store <==> r.key in s.store) &&
      (s.running[e].pc.Recover? ==> r.key in t.store) &&
      (r.key in t.store ==> t.promised == s.promised[r.key := Promise(r.checksum, t.store[r.key])])
  {
    assert RunSound(w, s, e, s.running[e]);
  }

  function Alone(store: Store, e: Evidence, checksum: string, pc: Pc): System {
    System(store, map[e := Run(checksum, pc)], map[])
  }

  lemma {:induction false} AloneAdvances(w: World, store: Store, e: Evidence, checksum: string, pc: Pc, next: Point)
    requires !pc.Finished? && Step(w.sha, e, DemandOf(w, e, checksum), Point(store, pc)) == next
    requires !(next.pc.Finished? && next.pc.outcome.Stored?)
    ensures Next(w, Alone(store, e, checksum, pc), Advance(e)) == Alone(next.store, e, checksum, next.pc)
  {
  }

  /** Between the staged object's check and its copy, other bytes may take its place. */
  lemma {:induction false} CheckedBytesMayBeOverwritten(
    w: World, e: Evidence, checksum: string, good: Object, bad: Object)
    requires Matches(w.sha, e, DemandOf(w, e, checksum), good)
    ensures var staged: Store := map[Staging(e) := good];
      Next(w, Alone(staged, e, checksum, Recover), Advance(e)) == Alone(staged, e, checksum, VerifyStaging) &&
      Next(w, Alone(staged, e, checksum, VerifyStaging), Advance(e)) == Alone(staged, e, checksum, Copy) &&
      Next(w, Alone(staged, e, checksum, Copy), Upload(e, bad)) == Alone(map[Staging(e) := bad], e, checksum, Copy)
  {
    var staged: Store := map[Staging(e) := good];
    assert staged[Staging(e) := bad] == map[Staging(e) := bad];
    AloneAdvances(w, staged, e, checksum, Recover, Point(staged, VerifyStaging));
    AloneAdvances(w, staged, e, checksum, VerifyStaging, Point(staged, Copy));
  }

  /** They are then copied and refused by the second check, and stay: a key need not match its name. */
  lemma {:induction false} OverwrittenBytesStay(w: World, e: Evidence, checksum: string, bad: Object)
    requires Digest(DigestOf(checksum)) && FinalKey(e, checksum).name != w.sha(bad.body)
    ensures var overwritten: Store := map[Staging(e) := bad];
      var copied := overwritten[FinalKey(e, checksum) := bad];
      Next(w, Alone(overwritten, e, checksum, Copy), Advance(e)) == Alone(copied, e, checksum, Reverify) &&
      Next(w, Alone(copied, e, checksum, Reverify), Advance(e)) == Alone(copied, e, checksum, Finished(NotFound)) &&
      Value(copied, FinalKey(e, checksum)) == Some(bad)
  {
    if Matches(w.sha, e, DemandOf(w, e, checksum), bad) {
      FinalKeyOfMatch(w, e, checksum, bad);
      CanonicalChecksum(w, e, checksum, bad);
    }
    var overwritten: Store := map[Staging(e) := bad];
    var copied := overwritten[FinalKey(e, checksum) := bad];
    AloneAdvances(w, overwritten, e, checksum, Copy, Point(copied, Reverify));
    AloneAdvances(w, copied, e, checksum, Reverify, Point(copied, Finished(NotFound)));
  }

  function Standing(store: Store, e: Evidence, d: Demand, n: nat): System
    requires Staging(e) in store
  {
    var p := CopyingPoint(store, e, d, n);
    Alone(p.store, e, d.checksum, p.pc)
  }

  lemma {:induction false} StandingStep(w: World, store: Store, e: Evidence, d: Demand, n: nat)
    requires d == DemandOf(w, e, d.checksum) && n < LAST_STEP - 1
    requires !Holds(w.sha, store, FinalKey(e, d.checksum), e, d) && Holds(w.sha, store, Staging(e), e, d)
    ensures Enabled(Standing(store, e, d, n), Advance(e))
    ensures Next(w, Standing(store, e, d, n), Advance(e)) == Standing(store, e, d, n + 1)
  {
    var p := CopyingPoint(store, e, d, n);
    CopyingStep(w.sha, store, e, d, n);
    AloneAdvances(w, p.store, e, d.checksum, p.pc, CopyingPoint(store, e, d, n + 1));
  }

  lemma {:induction false} StartedStands(w: World, store: Store, e: Evidence, d: Demand)
    requires Staging(e) in store && Digest(DigestOf(d.checksum))
    ensures Enabled(System(store, map[], map[]), Start(e, d.checksum))
    ensures Next(w, System(store, map[], map[]), Start(e, d.checksum)) == Standing(store, e, d, 0)
  {
  }

  ghost predicate Follows(w: World, s: System, a: Action, t: System) {
    Enabled(s, a) && Next(w, s, a) == t
  }

  lemma {:induction false} DeletionGoesUnnoticed(w: World, store: Store, e: Evidence, checksum: string)
    returns (gone: System, done: System)
    ensures Follows(w, Alone(store, e, checksum, DropStaging), Delete(FinalKey(e, checksum)), gone)
    ensures Follows(w, gone, Advance(e), done)
    ensures e in done.running && done.running[e].pc == Finished(Stored(FinalKey(e, checksum), Lower(checksum)))
    ensures FinalKey(e, checksum) !in done.store
  {
    gone := Next(w, Alone(store, e, checksum, DropStaging), Delete(FinalKey(e, checksum)));
    done := Next(w, gone, Advance(e));
  }

  /**
   A call on its own takes four steps to pass its second check; when its key is deleted then, it still
   answers that it has stored the object.
   */
  lemma {:induction false} DeletedBeforeTheEnd(w: World, store: Store, e: Evidence, d: Demand) returns (gone: System, done: System)
    requires d == DemandOf(w, e, d.checksum) && Digest(DigestOf(d.checksum))
    requires !Holds(w.sha, store, FinalKey(e, d.checksum), e, d) && Holds(w.sha, store, Staging(e), e, d)
    ensures Follows(w, System(store, map[], map[]), Start(e, d.checksum), Standing(store, e, d, 0))
    ensures forall n: nat | n < LAST_STEP - 1 :: Follows(w, Standing(store, e, d, n), Advance(e), Standing(store, e, d, n + 1))
    ensures Follows(w, Standing(store, e, d, LAST_STEP - 1), Delete(FinalKey(e, d.checksum)), gone)
    ensures Follows(w, gone, Advance(e), done)
    ensures e in done.running && done.running[e].pc == Finished(Stored(FinalKey(e, d.checksum), Lower(d.checksum)))
    ensures FinalKey(e, d.checksum) !in done.store
  {
    StartedStands(w, store, e, d);
    forall n: nat | n < LAST_STEP - 1 ensures Follows(w, Standing(store, e, d, n), Advance(e), Standing(store, e, d, n + 1)) {
      StandingStep(w, store, e, d, n);
    }
    gone, done := DeletionGoesUnnoticed(w, CopyingPoint(store, e, d, LAST_STEP - 1).store, e, d.checksum);
  }
}
