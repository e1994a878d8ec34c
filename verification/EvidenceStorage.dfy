/** The S3 evidence adapter: one call at a time, against a store that answers every request. */
module EvidenceStorage {
  import opened Json
  import opened EvidenceKeys

  newtype byte = x: int | 0 <= x < 256
  type Bytes = seq<byte>

  function ZeroDigest(b: Bytes): (r: string)
    ensures Digest(r)
  {
    seq(64, _ => '0')
  }

  /** A digest function: 64 lower-case hexadecimal digits, whatever the bytes. */
  type Hash = h: Bytes -> string | forall b :: Digest(h(b)) witness ZeroDigest

  const MAX_UPLOAD_SIZE_BYTES := 10_485_760
  const CHUNK := 64 * 1024

  datatype Object = Object(
    length: int, mediaType: string, claim: Option<string>, evidence: Option<string>, body: Bytes)

  type Store = map<Key, Object>

  /** What the record registered for an upload, and the checksum the claimant reports. */
  datatype Demand = Demand(checksum: string, mediaType: string, size: int)

  datatype Outcome =
    | Stored(key: Key, checksum: string)
    | NotFound
    | Unavailable
    | Conflict
    | TooLarge
    | InvalidIdentifier

  predicate Described(e: Evidence, d: Demand, o: Object) {
    o.length == d.size && o.mediaType == d.mediaType &&
    o.claim == Some(e.claim) && o.evidence == Some(e.evidence)
  }

  /** The object is the upload the record describes, and its bytes hash to the checksum. */
  predicate Matches(sha: Hash, e: Evidence, d: Demand, o: Object) {
    Described(e, d, o) && |o.body| == d.size <= MAX_UPLOAD_SIZE_BYTES &&
    Lower(d.checksum) == SCHEME + sha(o.body)
  }

  predicate Holds(sha: Hash, store: Store, key: Key, e: Evidence, d: Demand) {
    key in store && Matches(sha, e, d, store[key])
  }

  function Min(a: nat, b: nat): nat {
    if a < b then a else b
  }

  method VerifyObject(sha: Hash, store: Store, key: Key, e: Evidence, d: Demand)
    returns (verified: Option<string>)
    ensures verified == if Holds(sha, store, key, e, d) then Some(Lower(d.checksum)) else None
  {
    if key !in store {
      return None;
    }
    var o := store[key];
    if !Described(e, d, o) {
      return None;
    }
    var digested: Bytes, actual, at := [], 0, 0;
    while at < |o.body|
      invariant 0 <= at <= |o.body|
      invariant digested == o.body[..at] && actual == at
      invariant at > 0 ==> actual <= d.size && actual <= MAX_UPLOAD_SIZE_BYTES
    {
      var next := Min(at + CHUNK, |o.body|);
      var chunk := o.body[at..next];
      digested := digested + chunk;
      actual := actual + |chunk|;
      at := next;
      if actual > d.size || actual > MAX_UPLOAD_SIZE_BYTES {
        return None;
      }
    }
    if actual != d.size {
      return None;
    }
    assert digested == o.body;
    var checksum := SCHEME + sha(digested);
    if Lower(d.checksum) != checksum {
      return None;
    }
    return Some(checksum);
  }

  // The steps of completing an upload, between which the staging key may be overwritten.

  datatype Pc =
    | Recover
    | VerifyStaging
    | Copy
    | Reverify
    | DropStaging
    | Finished(outcome: Outcome)

  datatype Point = Point(store: Store, pc: Pc)

  function Step(sha: Hash, e: Evidence, d: Demand, p: Point): Point {
    var staging, final := Staging(e), FinalKey(e, d.checksum);
    match p.pc
    case Recover =>
      if Holds(sha, p.store, final, e, d) then p.(pc := Finished(Stored(final, Lower(d.checksum))))
      else p.(pc := VerifyStaging)
    case VerifyStaging =>
      if Holds(sha, p.store, staging, e, d) then p.(pc := Copy) else p.(pc := Finished(NotFound))
    case Copy =>
      if staging in p.store then Point(p.store[final := p.store[staging]], Reverify)
      else p.(pc := Finished(Unavailable))
    case Reverify =>
      if Holds(sha, p.store, final, e, d) then p.(pc := DropStaging) else p.(pc := Finished(NotFound))
    case DropStaging =>
      Point(p.store - {staging}, Finished(Stored(final, Lower(d.checksum))))
    case Finished(_) => p
  }

  function Steps(sha: Hash, e: Evidence, d: Demand, p: Point, n: nat): Point
    decreases n
  {
    if n == 0 then p else Steps(sha, e, d, Step(sha, e, d, p), n - 1)
  }

  const LAST_STEP := 5

  function Begin(store: Store, checksum: string): Point {
    Point(store, if Digest(DigestOf(checksum)) then Recover else Finished(NotFound))
  }

  /** An uninterrupted call. */
  function Complete(sha: Hash, store: Store, e: Evidence, d: Demand): Point {
    Steps(sha, e, d, Begin(store, d.checksum), LAST_STEP)
  }

  lemma {:induction false} StepsCompose(sha: Hash, e: Evidence, d: Demand, p: Point, a: nat, b: nat)
    ensures Steps(sha, e, d, p, a + b) == Steps(sha, e, d, Steps(sha, e, d, p, a), b)
    decreases a
  {
    if a > 0 {
      StepsCompose(sha, e, d, Step(sha, e, d, p), a - 1, b);
    }
  }

  /** The same call in one piece: recover, refuse, or move the staged object to its final key. */
  function Outcomes(sha: Hash, store: Store, e: Evidence, d: Demand): Point {
    var staging, final := Staging(e), FinalKey(e, d.checksum);
    var stored := Finished(Stored(final, Lower(d.checksum)));
    if !Digest(DigestOf(d.checksum)) then Point(store, Finished(NotFound))
    else if Holds(sha, store, final, e, d) then Point(store, stored)
    else if Holds(sha, store, staging, e, d) then Point(store[final := store[staging]] - {staging}, stored)
    else Point(store, Finished(NotFound))
  }

  /** Where an undisturbed call stands after `n` steps, when it is going to succeed by copying. */
  function CopyingPoint(store: Store, e: Evidence, d: Demand, n: nat): Point
    requires Staging(e) in store
  {
    var final := FinalKey(e, d.checksum);
    var copied := store[final := store[Staging(e)]];
    if n == 0 then Point(store, Recover)
    else if n == 1 then Point(store, VerifyStaging)
    else if n == 2 then Point(store, Copy)
    else if n == 3 then Point(copied, Reverify)
    else if n == 4 then Point(copied, DropStaging)
    else Point(copied - {Staging(e)}, Finished(Stored(final, Lower(d.checksum))))
  }

  lemma {:induction false} CopyingStep(sha: Hash, store: Store, e: Evidence, d: Demand, n: nat)
    requires !Holds(sha, store, FinalKey(e, d.checksum), e, d) && Holds(sha, store, Staging(e), e, d)
    ensures Step(sha, e, d, CopyingPoint(store, e, d, n)) == CopyingPoint(store, e, d, n + 1)
  {
    var p := CopyingPoint(store, e, d, n);
    if n < 2 {
      assert p.store == store;
    } else if n == 3 {
      assert p.store[FinalKey(e, d.checksum)] == store[Staging(e)];
    }
  }

  lemma {:induction false} CopyingPoints(sha: Hash, store: Store, e: Evidence, d: Demand, n: nat)
    requires Digest(DigestOf(d.checksum))
    requires !Holds(sha, store, FinalKey(e, d.checksum), e, d) && Holds(sha, store, Staging(e), e, d)
    ensures Steps(sha, e, d, Begin(store, d.checksum), n) == CopyingPoint(store, e, d, n)
  {
    if n > 0 {
      CopyingPoints(sha, store, e, d, n - 1);
      CopyingStep(sha, store, e, d, n - 1);
      StepsCompose(sha, e, d, Begin(store, d.checksum), n - 1, 1);
      assert Steps(sha, e, d, CopyingPoint(store, e, d, n - 1), 1) == CopyingPoint(store, e, d, n);
    }
  }

  lemma {:induction false} FinishedStays(sha: Hash, e: Evidence, d: Demand, p: Point, n: nat)
    requires p.pc.Finished?
    ensures Steps(sha, e, d, p, n) == p
    decreases n
  {
    if n > 0 { FinishedStays(sha, e, d, p, n - 1); }
  }

  /** An undisturbed call that does not copy leaves the store alone at every step. */
  lemma {:induction false} ReadingPoints(sha: Hash, store: Store, e: Evidence, d: Demand, n: nat)
    requires Outcomes(sha, store, e, d).store == store
    ensures Steps(sha, e, d, Begin(store, d.checksum), n).store == store
    ensures n >= 2 ==> Steps(sha, e, d, Begin(store, d.checksum), n) == Outcomes(sha, store, e, d)
  {
    var p := Begin(store, d.checksum);
    var q := Step(sha, e, d, p);
    var r := Step(sha, e, d, q);
    assert Steps(sha, e, d, p, 1) == q;
    if Holds(sha, store, FinalKey(e, d.checksum), e, d) || p.pc.Finished? {
      assert q == Outcomes(sha, store, e, d);
    } else {
      assert FinalKey(e, d.checksum) != Staging(e);
      assert !Holds(sha, store, Staging(e), e, d);
    }
    if n >= 2 {
      assert r == Outcomes(sha, store, e, d);
      assert Steps(sha, e, d, p, n) == Steps(sha, e, d, r, n - 2);
      FinishedStays(sha, e, d, r, n - 2);
    }
  }

  lemma {:induction false} CompleteIsOutcomes(sha: Hash, store: Store, e: Evidence, d: Demand)
    ensures Complete(sha, store, e, d) == Outcomes(sha, store, e, d)
  {
    var final := FinalKey(e, d.checksum);
    if Digest(DigestOf(d.checksum)) && !Holds(sha, store, final, e, d) && Holds(sha, store, Staging(e), e, d) {
      CopyingPoints(sha, store, e, d, LAST_STEP);
    } else {
      ReadingPoints(sha, store, e, d, LAST_STEP);
    }
  }

  /** The store as a cut-off call left it, as far as a retry depends on it. */
  ghost predicate Undisturbed(left: Store, now: Store, e: Evidence, d: Demand, n: nat) {
    Value(now, FinalKey(e, d.checksum)) == Value(left, FinalKey(e, d.checksum)) &&
    (n < 3 ==> Value(now, Staging(e)) == Value(left, Staging(e)))
  }

  function Value(store: Store, key: Key): Option<Object> {
    if key in store then Some(store[key]) else None
  }

  /**
   A call that would have succeeded, cut off after any number of steps, succeeds with the same key
   and checksum when it is made again; from the copy on, whatever has reached staging meanwhile.
   */
  lemma {:induction false} RetryRecovers(sha: Hash, store: Store, e: Evidence, d: Demand, n: nat, now: Store)
    requires n <= LAST_STEP && Complete(sha, store, e, d).pc.Finished?
    requires Complete(sha, store, e, d).pc.outcome.Stored?
    requires Undisturbed(Steps(sha, e, d, Begin(store, d.checksum), n).store, now, e, d, n)
    ensures Complete(sha, now, e, d).pc == Complete(sha, store, e, d).pc
  {
    CompleteIsOutcomes(sha, store, e, d);
    CompleteIsOutcomes(sha, now, e, d);
    if Holds(sha, store, FinalKey(e, d.checksum), e, d) {
      ReadingPoints(sha, store, e, d, n);
    } else {
      CopyingPoints(sha, store, e, d, n);
    }
  }

  /** A checksum is registered with one size and media type; with another, its object is replaced. */
  lemma {:induction false} OtherRegistrationReplaces(sha: Hash, store: Store, e: Evidence, d: Demand, later: Demand)
    requires Digest(DigestOf(d.checksum)) && later.checksum == d.checksum && later.mediaType != d.mediaType
    requires Holds(sha, store, FinalKey(e, d.checksum), e, d) && Holds(sha, store, Staging(e), e, later)
    ensures var after := Complete(sha, store, e, later);
      after.pc == Finished(Stored(FinalKey(e, d.checksum), Lower(d.checksum))) &&
      !Holds(sha, after.store, FinalKey(e, d.checksum), e, d)
  {
    CompleteIsOutcomes(sha, store, e, later);
  }
}
