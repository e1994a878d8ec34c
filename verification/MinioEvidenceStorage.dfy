/** The adapter object, method by method, and the content it generates itself. */
module MinioEvidenceStorage {
  import opened Json
  import Strings = Text
  import opened EvidenceKeys
  import opened EvidenceStorage

  datatype Deletion = Deleted | AlreadyAbsent | Failed | Unknown

  /**
   How the store takes a request to delete: it removes the object or leaves it, and answers or breaks
   off; it answers `Missing` when another request was faster.
   */
  datatype Removal = Removed | Ignored | Missing | BrokenRemoved | BrokenIgnored

  function Readable(store: Store, key: Key): Option<Bytes> {
    if key in store && |store[key].body| <= MAX_UPLOAD_SIZE_BYTES then Some(store[key].body) else None
  }

  function GeneratedDemand(sha: Hash, content: Bytes, mediaType: string): Demand {
    Demand(SCHEME + sha(content), mediaType, |content|)
  }

  function GeneratedObject(e: Evidence, content: Bytes, mediaType: string): Object {
    Object(|content|, mediaType, Some(e.claim), Some(e.evidence), content)
  }

  /** What storing generated content does, in one piece. */
  function Generated(sha: Hash, store: Store, e: Evidence, content: Bytes, mediaType: string): (Store, Outcome) {
    var key, d := Finalised(e, GENERATED), GeneratedDemand(sha, content, mediaType);
    if content == [] || Strings.Blank(mediaType) then (store, Conflict)
    else if |content| > MAX_UPLOAD_SIZE_BYTES then (store, TooLarge)
    else if !Safe(e) then (store, InvalidIdentifier)
    else if Holds(sha, store, key, e, d) then (store, Stored(key, d.checksum))
    else if Readable(store, key).Some? then (store, Conflict)
    else (store[key := GeneratedObject(e, content, mediaType)], Stored(key, d.checksum))
  }

  lemma {:induction false} GeneratedMatches(sha: Hash, e: Evidence, content: Bytes, mediaType: string)
    requires |content| <= MAX_UPLOAD_SIZE_BYTES
    ensures Matches(sha, e, GeneratedDemand(sha, content, mediaType), GeneratedObject(e, content, mediaType))
  {
    CanonicalDigest(sha(content));
  }

  lemma {:induction false} GeneratedLeaves(sha: Hash, store: Store, e: Evidence, content: Bytes, mediaType: string)
    requires Generated(sha, store, e, content, mediaType).1.Stored?
    ensures Holds(sha, Generated(sha, store, e, content, mediaType).0, Finalised(e, GENERATED), e,
                  GeneratedDemand(sha, content, mediaType))
  {
    GeneratedMatches(sha, e, content, mediaType);
  }

  /** An object answers exactly the demands that agree with one it answers, up to letter case. */
  lemma {:induction false} MatchesAgree(sha: Hash, e: Evidence, d: Demand, other: Demand, o: Object)
    requires Matches(sha, e, d, o)
    ensures Matches(sha, e, other, o) <==>
      other.size == d.size && other.mediaType == d.mediaType && Lower(other.checksum) == Lower(d.checksum)
  {
  }

  /** Generated content is immutable: stored once, replayed for the same bytes, refused for others. */
  lemma {:induction false} GeneratedIsImmutable(
    sha: Hash, store: Store, e: Evidence, d: Demand, content: Bytes, mediaType: string)
    requires Holds(sha, store, Finalised(e, GENERATED), e, d) && Safe(e) && d.size > 0 && !Strings.Blank(d.mediaType)
    ensures Generated(sha, store, e, content, mediaType).0 == store
    ensures Generated(sha, store, e, content, mediaType).1.Stored? <==>
      |content| == d.size && mediaType == d.mediaType && SCHEME + sha(content) == Lower(d.checksum)
  {
    CanonicalDigest(sha(content));
    var key := Finalised(e, GENERATED);
    var demand := GeneratedDemand(sha, content, mediaType);
    MatchesAgree(sha, e, d, demand, store[key]);
    assert Readable(store, key).Some?;
    assert Holds(sha, store, key, e, demand) <==>
      |content| == d.size && mediaType == d.mediaType && SCHEME + sha(content) == Lower(d.checksum);
  }

  class Adapter {
    var objects: Store
    const sha: Hash

    constructor (sha: Hash)
      ensures this.sha == sha && objects == map[]
    {
      this.sha := sha;
      objects := map[];
    }

    method CompleteUpload(e: Evidence, d: Demand) returns (r: Outcome)
      modifies this`objects
      ensures !Safe(e) ==> r == InvalidIdentifier && objects == old(objects)
      ensures Safe(e) ==> Point(objects, Finished(r)) == Outcomes(sha, old(objects), e, d)
    {
      if !Safe(e) {
        return InvalidIdentifier;
      }
      var staging, final := Staging(e), FinalKey(e, d.checksum);
      if !Digest(DigestOf(d.checksum)) {
        return NotFound;
      }
      var recovered := VerifyObject(sha, objects, final, e, d);
      if recovered.Some? {
        return Stored(final, Lower(d.checksum));
      }
      var verified := VerifyObject(sha, objects, staging, e, d);
      if verified.None? {
        return NotFound;
      }
      objects := objects[final := objects[staging]];
      var copied := VerifyObject(sha, objects, final, e, d.(checksum := verified.value));
      LowerTwice(d.checksum);
      if copied.None? {
        return NotFound;
      }
      objects := objects - {staging};
      return Stored(final, verified.value);
    }

    /** Any string may be given as the stored key. */
    method ReadUpload(e: Evidence, stored: Option<string>) returns (content: Option<Bytes>)
      requires Safe(e)
      ensures content.Some? ==> stored.Some? && KeyIn(e, stored.value).Some?
      ensures stored.Some? && KeyIn(e, stored.value).Some? ==>
        content == Readable(objects, KeyIn(e, stored.value).value)
    {
      if stored.None? || !(FinalDirectory(e) <= stored.value) {
        return None;
      }
      var key := Finalised(e, stored.value[|FinalDirectory(e)|..]);
      if key !in objects {
        return None;
      }
      var body := objects[key].body;
      var read := body[..Min(|body|, MAX_UPLOAD_SIZE_BYTES + 1)];
      if |read| > MAX_UPLOAD_SIZE_BYTES {
        return None;
      }
      assert read == body;
      return Some(read);
    }

    /** `probed` and `checked` say whether the looks before and after the request are answered. */
    method DeleteUpload(e: Evidence, stored: string, probed: bool, removal: Removal, checked: bool)
      returns (r: Deletion)
      requires Safe(e)
      modifies this`objects
      ensures KeyIn(e, stored).None? ==> r == Unknown && objects == old(objects)
      ensures KeyIn(e, stored).Some? ==>
        var key := KeyIn(e, stored).value;
        (objects == old(objects) || objects == old(objects) - {key}) &&
        (r.Deleted? ==> key in old(objects) && key !in objects) &&
        (r.AlreadyAbsent? ==> key !in objects) &&
        (r.Failed? ==> objects == old(objects)) &&
        (r.Unknown? ==> removal.BrokenRemoved? || removal.BrokenIgnored? || !checked) &&
        (probed && removal == Removed && checked ==>
           r == (if key in old(objects) then Deleted else AlreadyAbsent) && key !in objects)
    {
      if !(FinalDirectory(e) <= stored) {
        return Unknown;
      }
      var key := Finalised(e, stored[|FinalDirectory(e)|..]);
      if !probed {
        return Failed;
      }
      if key !in objects {
        return AlreadyAbsent;
      }
      if removal in {Removed, Missing, BrokenRemoved} {
        objects := objects - {key};
      }
      if removal == Missing {
        return AlreadyAbsent;
      }
      if removal in {BrokenRemoved, BrokenIgnored} || !checked {
        return Unknown;
      }
      return if key !in objects then Deleted else Failed;
    }

    method StoreGeneratedContent(e: Evidence, content: Bytes, mediaType: string) returns (r: Outcome)
      modifies this`objects
      ensures (objects, r) == Generated(sha, old(objects), e, content, mediaType)
    {
      if content == [] || Strings.Blank(mediaType) {
        return Conflict;
      }
      if |content| > MAX_UPLOAD_SIZE_BYTES {
        return TooLarge;
      }
      if !Safe(e) {
        return InvalidIdentifier;
      }
      var d := GeneratedDemand(sha, content, mediaType);
      var key := Finalised(e, GENERATED);
      CanonicalDigest(sha(content));
      var stored := VerifyObject(sha, objects, key, e, d);
      if stored.None? {
        KeyInIsExact(e, Render(key), key);
        var existing := ReadUpload(e, Some(Render(key)));
        if existing.Some? {
          return Conflict;
        }
        objects := objects[key := GeneratedObject(e, content, mediaType)];
        GeneratedMatches(sha, e, content, mediaType);
        var written := VerifyObject(sha, objects, key, e, d);
        if written.None? {
          return NotFound;
        }
      }
      return Stored(key, d.checksum);
    }
  }

  lemma {:induction false} LowerTwice(s: string)
    ensures Lower(Lower(s)) == Lower(s)
  {
  }
}
