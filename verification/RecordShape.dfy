/** Rewriting one stored document to the current record shapes. */
module RecordShape {
  import opened Json

  const REMOVED_KEY := "current_action_satisfied"
  const KIND_KEYS: set<string> := {"kind", "document_kind"}
  const OLD_PHOTO_KINDS: set<string> := {"incident_image", "photo"}
  const PHOTO_KIND := "incident_photo"

  predicate KindKey(key: Option<string>) {
    key.Some? && key.value in KIND_KEYS
  }

  /** `incident_image` is old wherever it stands; `photo` only as a kind. */
  predicate OldKind(text: string, key: Option<string>) {
    text == "incident_image" || (KindKey(key) && text in OLD_PHOTO_KINDS)
  }

  /** `key` is the field the value was reached through, lists in between passing it on. */
  function CurrentShape(v: Json, key: Option<string>): Json {
    match v
    case Obj(fields) => Obj(map k | k in fields && k != REMOVED_KEY :: CurrentShape(fields[k], Some(k)))
    case Arr(xs) => Arr(seq(|xs|, i requires 0 <= i < |xs| => CurrentShape(xs[i], key)))
    case Str(text) => if OldKind(text, key) then Str(PHOTO_KIND) else v
    case _ => v
  }

  /** No old form at any depth. */
  ghost predicate Current(v: Json, key: Option<string>) {
    match v
    case Obj(fields) => REMOVED_KEY !in fields && forall k | k in fields :: Current(fields[k], Some(k))
    case Arr(xs) => forall x | x in xs :: Current(x, key)
    case Str(text) => !OldKind(text, key)
    case _ => true
  }

  lemma {:induction false} ShapeIsCurrent(v: Json, key: Option<string>)
    ensures Current(CurrentShape(v, key), key)
  {
    match v
    case Obj(fields) =>
      forall k | k in fields { ShapeIsCurrent(fields[k], Some(k)); }
    case Arr(xs) =>
      forall i | 0 <= i < |xs| { ShapeIsCurrent(xs[i], key); }
    case _ =>
  }

  lemma {:induction false} CurrentIsKept(v: Json, key: Option<string>)
    requires Current(v, key)
    ensures CurrentShape(v, key) == v
  {
    match v
    case Obj(fields) =>
      forall k | k in fields { CurrentIsKept(fields[k], Some(k)); }
      assert CurrentShape(v, key).fields == fields;
    case Arr(xs) =>
      forall i | 0 <= i < |xs| { CurrentIsKept(xs[i], key); }
      assert CurrentShape(v, key).items == xs;
    case _ =>
  }

  /** The rewriting leaves a value alone exactly when no old form is left in it, so once is enough. */
  lemma {:induction false} ShapeFixedPoints(v: Json, key: Option<string>)
    ensures Current(v, key) <==> CurrentShape(v, key) == v
    ensures CurrentShape(CurrentShape(v, key), key) == CurrentShape(v, key)
  {
    ShapeIsCurrent(v, key);
    CurrentIsKept(CurrentShape(v, key), key);
    if Current(v, key) { CurrentIsKept(v, key); }
  }

  // What is rewritten, place by place.

  datatype Step = Field(name: string) | Index(i: nat)

  function At(v: Json, path: seq<Step>): Option<Json>
    decreases |path|
  {
    if path == [] then Some(v)
    else match (v, path[0])
      case (Obj(fields), Field(name)) => if name in fields then At(fields[name], path[1..]) else None
      case (Arr(xs), Index(i)) => if i < |xs| then At(xs[i], path[1..]) else None
      case _ => None
  }

  function KeyAt(key: Option<string>, path: seq<Step>): Option<string>
    decreases |path|
  {
    if path == [] then key
    else KeyAt(if path[0].Field? then Some(path[0].name) else key, path[1..])
  }

  /**
   Every place outside the removed field keeps its value, but an old photo kind becomes the current
   one; every place inside it is gone.
   */
  lemma {:induction false} ShapeAt(v: Json, key: Option<string>, path: seq<Step>)
    ensures Field(REMOVED_KEY) in path ==> At(CurrentShape(v, key), path).None?
    ensures Field(REMOVED_KEY) !in path ==>
      var before, after := At(v, path), At(CurrentShape(v, key), path);
      before.Some? == after.Some? &&
      (before.Some? && Scalar(before.value) ==>
         after.value == if before.value.Str? && OldKind(before.value.s, KeyAt(key, path)) then Str(PHOTO_KIND)
                        else before.value)
    decreases |path|
  {
    if path != [] {
      assert path == [path[0]] + path[1..];
      match (v, path[0])
      case (Obj(fields), Field(name)) =>
        if name in fields && name != REMOVED_KEY { ShapeAt(fields[name], Some(name), path[1..]); }
      case (Arr(xs), Index(i)) =>
        if i < |xs| { ShapeAt(xs[i], key, path[1..]); }
      case _ =>
    }
  }
}
