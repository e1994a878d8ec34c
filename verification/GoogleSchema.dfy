/** The Google translation: drop bounds, inline references, merge the field-change variants. */
module GoogleSchema {
  import opened Json
  import opened Schema

  /** CONFIGURATION is the gateway's own refusal; a fault is a Python error on malformed input. */
  datatype Outcome<+T> = Done(value: T) | Refused | Fault

  // Dropping the constraint keywords.

  function Supported(v: Json): Json {
    match v
    case Arr(xs) => Arr(seq(|xs|, i requires 0 <= i < |xs| => Supported(xs[i])))
    case Obj(fields) => Obj(map k | k in fields && k !in CONSTRAINTS :: Supported(fields[k]))
    case _ => v
  }

  function SupportedDefinitions(defs: Definitions): Definitions {
    map name | name in defs :: Supported(defs[name])
  }

  /** Property names the two name-blind passes would take for keywords; definitions likewise. */
  predicate PlainNames(s: Json) {
    s.Obj? ==>
      CONSTRAINTS + {"$defs"} !! Declared(s.fields).Keys &&
      CONSTRAINTS !! DefinitionsOf(s).Keys
  }

  ghost predicate Droppable(s: Json) {
    Everywhere(WellFormed, s) && Everywhere(PlainNames, s)
  }

  ghost predicate DroppedPair(c: Context, d: Context) {
    c.reading == UNCONSTRAINED && d == c.(reading := PLAIN, defs := SupportedDefinitions(c.defs)) &&
    forall name | name in c.defs :: Droppable(c.defs[name])
  }

  lemma {:induction false} ScalarsSupported(k: string, arg: Json)
    requires ArgumentFormed(k, arg) && k !in ANNOTATIONS
    requires k !in {"properties", "items", "additionalProperties", "anyOf", "allOf"}
    ensures Supported(arg) == arg
  {
    if arg.Arr? {
      forall i | 0 <= i < |arg.items| ensures Supported(arg.items[i]) == arg.items[i] {
        assert arg.items[i] in arg.items;
      }
    }
  }

  lemma {:induction false} SupportedArgument(c: Context, d: Context, s: Json, k: string)
    requires s.Obj? && k in s.fields && k !in CONSTRAINTS
    requires WellFormed(s) && PlainNames(s) && DroppedPair(c, d)
    requires forall x | x in Subschemas(k, s.fields[k]) :: Same(c, x, d, Supported(x))
    requires c.fuel > 0 ==>
      forall name | name in c.defs :: Same(Next(c), c.defs[name], Next(d), d.defs[name])
    ensures ArgumentWithin(c, k, s.fields[k], d, Supported(s.fields[k]))
    ensures ArgumentWithin(d, k, Supported(s.fields[k]), c, s.fields[k])
  {
    var arg := s.fields[k];
    assert ArgumentFormed(k, arg);
    if k == "properties" {
      assert arg.fields == Declared(s.fields);
      assert forall name | name in arg.fields :: arg.fields[name] in Subschemas(k, arg);
      assert Supported(arg).fields.Keys == arg.fields.Keys;
    } else if k == "items" {
      assert arg in Subschemas(k, arg);
    } else if k in {"anyOf", "allOf"} {
      assert forall i | 0 <= i < |arg.items| :: arg.items[i] in Subschemas(k, arg);
    } else if k !in ANNOTATIONS {
      ScalarsSupported(k, arg);
    }
  }

  /** Dropping the constraints is the same as reading the schema without them. */
  lemma {:induction false} SupportedReads(c: Context, d: Context, s: Json)
    requires Droppable(s) && DroppedPair(c, d)
    ensures Same(c, s, d, Supported(s))
    decreases c.fuel, s
  {
    if s.Obj? {
      if c.fuel > 0 {
        forall name | name in c.defs ensures Same(Next(c), c.defs[name], Next(d), d.defs[name]) {
          SupportedReads(Next(c), Next(d), c.defs[name]);
        }
      }
      forall k, v | k in s.fields && k !in CONSTRAINTS
        ensures Holds(c, s, k, v) <==> Holds(d, Supported(s), k, v)
      {
        forall x | x in Subschemas(k, s.fields[k]) ensures Same(c, x, d, Supported(x)) {
          Inside(WellFormed, s, k, x);
          Inside(PlainNames, s, k, x);
          SupportedReads(c, d, x);
        }
        SupportedArgument(c, d, s, k);
        if Holds(c, s, k, v) { HoldsWithin(c, s, d, Supported(s), k, v); }
        if Holds(d, Supported(s), k, v) { HoldsWithin(d, Supported(s), c, s, k, v); }
      }
    }
  }

  // Inlining the references.

  ghost function Unresolved(defs: Definitions, resolving: set<string>): set<string> {
    set name | name in defs && RefTo(name) !in resolving
  }

  predicate Follows(defs: Definitions, ref: Json, resolving: set<string>) {
    Target(ref).Some? && ref.s !in resolving && Target(ref).value in defs
  }

  lemma {:induction false} FollowingResolves(defs: Definitions, ref: Json, resolving: set<string>)
    requires Follows(defs, ref, resolving)
    ensures Unresolved(defs, resolving + {ref.s}) < Unresolved(defs, resolving)
  {
    var name := Target(ref).value;
    assert ref.s == RefTo(name);
    assert name in Unresolved(defs, resolving);
    assert name !in Unresolved(defs, resolving + {ref.s});
  }

  /** `resolving` holds the references being followed; meeting one again is a cycle. */
  function Inline(defs: Definitions, item: Json, resolving: set<string>): Option<Json>
    decreases Unresolved(defs, resolving), item
  {
    match item
    case Arr(xs) =>
      if forall x | x in xs :: Inline(defs, x, resolving).Some? then
        Some(Arr(seq(|xs|, i requires 0 <= i < |xs| => Inline(defs, xs[i], resolving).value)))
      else None
    case Obj(fields) =>
      if "$ref" in fields then
        var ref := fields["$ref"];
        if Follows(defs, ref, resolving) then
          FollowingResolves(defs, ref, resolving);
          Inline(defs, defs[Target(ref).value], resolving + {ref.s})
        else None
      else if forall k | k in fields && k != "$defs" :: Inline(defs, fields[k], resolving).Some? then
        Some(Obj(map k | k in fields && k != "$defs" :: Inline(defs, fields[k], resolving).value))
      else None
    case _ => Some(item)
  }

  ghost predicate NoReferences(item: Json) {
    match item
    case Arr(xs) => forall x | x in xs :: NoReferences(x)
    case Obj(fields) =>
      "$ref" !in fields && "$defs" !in fields && forall k | k in fields :: NoReferences(fields[k])
    case _ => true
  }

  /** The references the inliner meets in `item` itself. */
  ghost function ReferencesIn(item: Json): set<Json> {
    match item
    case Arr(xs) => set x, r | x in xs && r in ReferencesIn(x) :: r
    case Obj(fields) =>
      if "$ref" in fields then {fields["$ref"]}
      else set k, r | k in fields && k != "$defs" && r in ReferencesIn(fields[k]) :: r
    case _ => {}
  }

  /** Each step of a path is a reference met in the definition the step before it names. */
  ghost predicate ReferencePath(defs: Definitions, item: Json, path: seq<Json>)
    decreases |path|
  {
    path == [] ||
    (path[0] in ReferencesIn(item) &&
     (|path| > 1 ==>
       Target(path[0]).Some? && Target(path[0]).value in defs &&
       ReferencePath(defs, defs[Target(path[0]).value], path[1..])))
  }

  ghost predicate SoundPath(defs: Definitions, resolving: set<string>, path: seq<Json>) {
    (forall ref | ref in path :: Follows(defs, ref, resolving)) &&
    (forall i, j | 0 <= i < j < |path| :: path[i] != path[j])
  }

  lemma {:induction false} InlineIsReferenceFree(defs: Definitions, item: Json, resolving: set<string>)
    requires Inline(defs, item, resolving).Some?
    ensures NoReferences(Inline(defs, item, resolving).value)
    decreases Unresolved(defs, resolving), item
  {
    match item
    case Arr(xs) =>
      forall i | 0 <= i < |xs| ensures NoReferences(Inline(defs, xs[i], resolving).value) {
        assert xs[i] in xs;
        InlineIsReferenceFree(defs, xs[i], resolving);
      }
    case Obj(fields) =>
      if "$ref" in fields {
        FollowingResolves(defs, fields["$ref"], resolving);
        InlineIsReferenceFree(defs, defs[Target(fields["$ref"]).value], resolving + {fields["$ref"].s});
      } else {
        forall k | k in fields && k != "$defs" { InlineIsReferenceFree(defs, fields[k], resolving); }
      }
    case _ =>
  }

  lemma {:induction false} InlinedPathsAreSound(
    defs: Definitions, item: Json, resolving: set<string>, path: seq<Json>)
    requires Inline(defs, item, resolving).Some? && ReferencePath(defs, item, path)
    ensures SoundPath(defs, resolving, path)
    decreases Unresolved(defs, resolving), item
  {
    if path != [] {
      match item
      case Arr(xs) =>
        var x :| x in xs && path[0] in ReferencesIn(x);
        InlinedPathsAreSound(defs, x, resolving, path);
      case Obj(fields) =>
        if "$ref" in fields {
          var ref := fields["$ref"];
          FollowingResolves(defs, ref, resolving);
          if |path| > 1 {
            InlinedPathsAreSound(defs, defs[Target(ref).value], resolving + {ref.s}, path[1..]);
            forall i, j | 0 <= i < j < |path| ensures path[i] != path[j] {
              assert path[j] == path[1..][j - 1] && path[j] in path[1..];
              if i > 0 { assert path[i] == path[1..][i - 1]; }
            }
            assert path == [ref] + path[1..];
          }
        } else {
          var k :| k in fields && k != "$defs" && path[0] in ReferencesIn(fields[k]);
          InlinedPathsAreSound(defs, fields[k], resolving, path);
        }
      case _ =>
    }
  }

  lemma {:induction false} RefusedHasUnsoundPath(defs: Definitions, item: Json, resolving: set<string>)
    returns (path: seq<Json>)
    requires Inline(defs, item, resolving).None?
    ensures ReferencePath(defs, item, path) && !SoundPath(defs, resolving, path)
    decreases Unresolved(defs, resolving), item
  {
    match item
    case Arr(xs) =>
      var x :| x in xs && Inline(defs, x, resolving).None?;
      path := RefusedHasUnsoundPath(defs, x, resolving);
    case Obj(fields) =>
      if "$ref" in fields {
        var ref := fields["$ref"];
        path := [ref];
        if Follows(defs, ref, resolving) {
          FollowingResolves(defs, ref, resolving);
          var rest := RefusedHasUnsoundPath(defs, defs[Target(ref).value], resolving + {ref.s});
          path := [ref] + rest;
          assert path[1..] == rest;
          if ref in rest {
            var j :| 0 <= j < |rest| && rest[j] == ref;
            assert path[0] == path[j + 1];
          } else if forall r | r in rest :: Follows(defs, r, resolving + {ref.s}) {
            var i, j :| 0 <= i < j < |rest| && rest[i] == rest[j];
            assert path[i + 1] == path[j + 1];
          } else {
            var r :| r in rest && !Follows(defs, r, resolving + {ref.s});
            assert r in path;
          }
        } else {
          assert ref in path;
        }
      } else {
        var k :| k in fields && k != "$defs" && Inline(defs, fields[k], resolving).None?;
        path := RefusedHasUnsoundPath(defs, fields[k], resolving);
      }
    case _ => assert false;
  }

  /** Inlining succeeds exactly when every reachable reference is local, defined and acyclic. */
  lemma {:induction false} InlineSucceedsExactly(defs: Definitions, item: Json)
    ensures Inline(defs, item, {}).Some? <==>
            forall path | ReferencePath(defs, item, path) :: SoundPath(defs, {}, path)
  {
    if Inline(defs, item, {}).Some? {
      forall path | ReferencePath(defs, item, path) ensures SoundPath(defs, {}, path) {
        InlinedPathsAreSound(defs, item, {}, path);
      }
    } else {
      var path := RefusedHasUnsoundPath(defs, item, {});
    }
  }

  // What inlining does to the accepted set.

  /** A reference that stands alone, but for annotations. The inliner drops its siblings. */
  predicate ReferencesAlone(s: Json) {
    s.Obj? && "$ref" in s.fields ==> s.fields.Keys <= ANNOTATIONS + {"$ref"}
  }

  ghost predicate Inlinable(s: Json) {
    Everywhere(WellFormed, s) && Everywhere(PlainNames, s)
  }

  lemma {:induction false} ScalarsInline(defs: Definitions, k: string, arg: Json, resolving: set<string>)
    requires ArgumentFormed(k, arg) && k !in ANNOTATIONS
    requires k !in {"properties", "items", "additionalProperties", "anyOf", "allOf"}
    ensures Inline(defs, arg, resolving) == Some(arg)
  {
    if arg.Arr? {
      assert forall x | x in arg.items :: Inline(defs, x, resolving) == Some(x);
      assert Inline(defs, arg, resolving).value.items == arg.items;
    }
  }

  /** A property called `$ref` is taken for a reference, and refused. */
  lemma {:induction false} InlineProperties(defs: Definitions, s: Json, resolving: set<string>)
    requires s.Obj? && Inlinable(s) && "properties" in s.fields
    requires Inline(defs, s.fields["properties"], resolving).Some?
    ensures var arg, brg := s.fields["properties"], Inline(defs, s.fields["properties"], resolving).value;
      arg.Obj? && brg.Obj? && brg.fields.Keys == arg.fields.Keys &&
      forall name | name in arg.fields ::
        Inline(defs, arg.fields[name], resolving) == Some(brg.fields[name])
  {
    var arg := s.fields["properties"];
    assert WellFormed(s) && PlainNames(s) && ArgumentFormed("properties", arg);
    if "$ref" in arg.fields {
      assert arg.fields["$ref"] in Subschemas("properties", arg);
      Inside(WellFormed, s, "properties", arg.fields["$ref"]);
    }
    assert arg.fields == Declared(s.fields);
  }

  ghost predicate InlineContexts(c: Context, d: Context) {
    c.reading == PLAIN && d.reading == PLAIN && c.matcher == d.matcher &&
    forall name | name in c.defs :: Inlinable(c.defs[name])
  }

  lemma {:induction false} InlinedArgumentWithin(c: Context, d: Context, s: Json, k: string, resolving: set<string>)
    requires s.Obj? && Inlinable(s) && k in s.fields && k !in {"$ref", "$defs"}
    requires Inline(c.defs, s.fields[k], resolving).Some?
    requires forall x | x in Subschemas(k, s.fields[k]) && Inline(c.defs, x, resolving).Some? ::
      Within(c, x, d, Inline(c.defs, x, resolving).value)
    ensures ArgumentWithin(c, k, s.fields[k], d, Inline(c.defs, s.fields[k], resolving).value)
  {
    var arg := s.fields[k];
    assert WellFormed(s) && ArgumentFormed(k, arg);
    if k == "properties" {
      InlineProperties(c.defs, s, resolving);
      assert forall name | name in arg.fields :: arg.fields[name] in Subschemas(k, arg);
    } else if k in {"items", "additionalProperties"} {
      assert arg in Subschemas(k, arg);
    } else if k in {"anyOf", "allOf"} {
      assert forall i | 0 <= i < |arg.items| :: arg.items[i] in Subschemas(k, arg);
    } else if k !in ANNOTATIONS {
      ScalarsInline(c.defs, k, arg, resolving);
    }
  }

  lemma {:induction false} InlinedFields(c: Context, d: Context, s: Json, resolving: set<string>, k: string)
    requires s.Obj? && Inlinable(s) && "$ref" !in s.fields
    requires Inline(c.defs, s, resolving).Some?
    ensures var t := Inline(c.defs, s, resolving).value;
      t.Obj? && t.fields.Keys == s.fields.Keys - {"$defs"} &&
      Declared(t.fields).Keys == Declared(s.fields).Keys &&
      (k in t.fields ==> Inline(c.defs, s.fields[k], resolving) == Some(t.fields[k]))
  {
    if "properties" in s.fields {
      assert Inline(c.defs, s.fields["properties"], resolving).Some?;
      InlineProperties(c.defs, s, resolving);
    }
  }

  /** Inlining never loses an instance. */
  lemma {:induction false} InlineOnlyRelaxes(c: Context, d: Context, s: Json, resolving: set<string>)
    requires InlineContexts(c, d) && Inlinable(s) && Inline(c.defs, s, resolving).Some?
    ensures Within(c, s, d, Inline(c.defs, s, resolving).value)
    decreases c.fuel, s
  {
    if s.Obj? {
      var t := Inline(c.defs, s, resolving).value;
      if "$ref" in s.fields {
        var ref := s.fields["$ref"];
        var target := c.defs[Target(ref).value];
        FollowingResolves(c.defs, ref, resolving);
        forall v | Accepts(c, s, v) ensures Accepts(d, t, v) {
          assert Holds(c, s, "$ref", v);
          InlineOnlyRelaxes(Next(c), d, target, resolving + {ref.s});
        }
      } else {
        forall k, v | k in t.fields && Holds(c, s, k, v) ensures Holds(d, t, k, v) {
          forall x | x in Subschemas(k, s.fields[k]) && Inline(c.defs, x, resolving).Some?
            ensures Within(c, x, d, Inline(c.defs, x, resolving).value)
          {
            Inside(WellFormed, s, k, x);
            Inside(PlainNames, s, k, x);
            InlineOnlyRelaxes(c, d, x, resolving);
          }
          InlinedFields(c, d, s, resolving, k);
          InlinedArgumentWithin(c, d, s, k, resolving);
          HoldsWithin(c, s, d, t, k, v);
        }
        InlinedFields(c, d, s, resolving, "type");
      }
    }
  }

  ghost predicate Alone(s: Json) {
    Inlinable(s) && Everywhere(ReferencesAlone, s)
  }

  lemma {:induction false} InlinedArgumentBack(c: Context, d: Context, s: Json, k: string, resolving: set<string>)
    requires s.Obj? && Inlinable(s) && k in s.fields && k !in {"$ref", "$defs"}
    requires Inline(c.defs, s.fields[k], resolving).Some?
    requires forall x | x in Subschemas(k, s.fields[k]) && Inline(c.defs, x, resolving).Some? ::
      Within(d, Inline(c.defs, x, resolving).value, c, x)
    ensures ArgumentWithin(d, k, Inline(c.defs, s.fields[k], resolving).value, c, s.fields[k])
  {
    var arg := s.fields[k];
    assert WellFormed(s) && ArgumentFormed(k, arg);
    if k == "properties" {
      InlineProperties(c.defs, s, resolving);
      assert forall name | name in arg.fields :: arg.fields[name] in Subschemas(k, arg);
    } else if k in {"items", "additionalProperties"} {
      assert arg in Subschemas(k, arg);
    } else if k in {"anyOf", "allOf"} {
      assert forall i | 0 <= i < |arg.items| :: arg.items[i] in Subschemas(k, arg);
    } else if k !in ANNOTATIONS {
      ScalarsInline(c.defs, k, arg, resolving);
    }
  }

  lemma {:induction false} ReferenceAcceptsTarget(c: Context, s: Json, v: Json)
    requires c.reading == PLAIN && s.Obj? && ReferencesAlone(s) && "$ref" in s.fields && c.fuel > 0
    requires Target(s.fields["$ref"]).Some? && Target(s.fields["$ref"]).value in c.defs
    requires Accepts(Next(c), c.defs[Target(s.fields["$ref"]).value], v)
    ensures Accepts(c, s, v)
  {
    forall k | k in s.fields ensures Holds(c, s, k, v) {
      if k != "$ref" { assert k in ANNOTATIONS; }
    }
  }

  lemma {:induction false} KeywordBack(c: Context, d: Context, s: Json, resolving: set<string>, k: string, v: Json)
    requires s.Obj? && Inlinable(s) && "$ref" !in s.fields && Inline(c.defs, s, resolving).Some?
    requires c.matcher == d.matcher
    requires k in s.fields && forall x | x in Subschemas(k, s.fields[k]) && Inline(c.defs, x, resolving).Some? ::
      Within(d, Inline(c.defs, x, resolving).value, c, x)
    requires k != "$defs" ==> k in Inline(c.defs, s, resolving).value.fields && Holds(d, Inline(c.defs, s, resolving).value, k, v)
    ensures Holds(c, s, k, v)
  {
    InlinedFields(c, d, s, resolving, k);
    if k != "$defs" {
      InlinedArgumentBack(c, d, s, k, resolving);
      HoldsWithin(d, Inline(c.defs, s, resolving).value, c, s, k, v);
    }
  }

  /** Where references stand alone, inlining gains no instance either. */
  lemma {:induction false} InlineAddsNothing(c: Context, d: Context, s: Json, resolving: set<string>)
    requires InlineContexts(c, d) && Alone(s) && forall name | name in c.defs :: Alone(c.defs[name])
    requires Inline(c.defs, s, resolving).Some?
    requires c.fuel >= |Unresolved(c.defs, resolving)|
    ensures Within(d, Inline(c.defs, s, resolving).value, c, s)
    decreases Unresolved(c.defs, resolving), s
  {
    if s.Obj? && "$ref" in s.fields {
      var ref := s.fields["$ref"];
      FollowingResolves(c.defs, ref, resolving);
      FewerUnresolved(c.defs, ref, resolving);
      InlineAddsNothing(Next(c), d, c.defs[Target(ref).value], resolving + {ref.s});
      forall v | Accepts(d, Inline(c.defs, s, resolving).value, v) ensures Accepts(c, s, v) {
        ReferenceAcceptsTarget(c, s, v);
      }
    } else if s.Obj? {
      var t := Inline(c.defs, s, resolving).value;
      InlinedFields(c, d, s, resolving, "type");
      forall k, x | k in s.fields && x in Subschemas(k, s.fields[k]) && Inline(c.defs, x, resolving).Some?
        ensures Within(d, Inline(c.defs, x, resolving).value, c, x)
      {
        Inside(WellFormed, s, k, x);
        Inside(PlainNames, s, k, x);
        Inside(ReferencesAlone, s, k, x);
        InlineAddsNothing(c, d, x, resolving);
      }
      forall v | Accepts(d, t, v) ensures Accepts(c, s, v) {
        forall k | k in s.fields ensures Holds(c, s, k, v) {
          KeywordBack(c, d, s, resolving, k, v);
        }
      }
    }
  }

  lemma {:induction false} UnreferencedDefinitions(defs: Definitions, item: Json)
    requires item.Obj? && Inline(defs, item, {}).Some?
    ensures DefinitionsOf(Inline(defs, item, {}).value) == map[]
  {
    InlineIsReferenceFree(defs, item, {});
  }

  /** Inlining every reference of a document leaves what it accepts as it was. */
  lemma {:induction false} InlineKeepsMeaning(m: Matcher, root: Json, v: Json)
    requires root.Obj? && Alone(root) && Inline(DefinitionsOf(root), root, {}).Some?
    ensures AcceptsDocument(PLAIN, m, Inline(DefinitionsOf(root), root, {}).value, v) <==>
            AcceptsDocument(PLAIN, m, root, v)
  {
    var defs := DefinitionsOf(root);
    var inlined := Inline(defs, root, {}).value;
    InDefinitions(WellFormed, root);
    InDefinitions(PlainNames, root);
    InDefinitions(ReferencesAlone, root);
    UnreferencedDefinitions(defs, root);
    if AcceptsDocument(PLAIN, m, root, v) {
      var fuel :| Accepts(Context(PLAIN, m, defs, fuel), root, v);
      InlineOnlyRelaxes(Context(PLAIN, m, defs, fuel), Context(PLAIN, m, map[], fuel), root, {});
      assert Accepts(Context(PLAIN, m, map[], fuel), inlined, v);
    }
    if AcceptsDocument(PLAIN, m, inlined, v) {
      var fuel :| Accepts(Context(PLAIN, m, map[], fuel), inlined, v);
      var enough := |Unresolved(defs, {})|;
      InlineAddsNothing(Context(PLAIN, m, defs, enough), Context(PLAIN, m, map[], fuel), root, {});
      assert Accepts(Context(PLAIN, m, defs, enough), root, v);
    }
  }

  lemma {:induction false} FewerUnresolved(defs: Definitions, ref: Json, resolving: set<string>)
    requires Follows(defs, ref, resolving)
    ensures |Unresolved(defs, resolving + {ref.s})| < |Unresolved(defs, resolving)|
  {
    FollowingResolves(defs, ref, resolving);
    SmallerSet(Unresolved(defs, resolving + {ref.s}), Unresolved(defs, resolving));
  }

  lemma {:induction false} SmallerSet<T>(a: set<T>, b: set<T>)
    requires a < b
    ensures |a| < |b|
  {
    assert b == a + (b - a) && a !! (b - a);
  }
}
