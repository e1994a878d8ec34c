/**
 JSON Schema 2020-12 for the keywords the field and turn schemas use: Core sections 8.2.3.1
 ($ref), 10.2.1 (allOf, anyOf) and 10.3 (items, properties, additionalProperties), Validation
 sections 6.1 to 6.5.3 (type, enum, const, the bounds, pattern, required).
 */
module Schema {
  import opened Json

  const CONSTRAINTS: set<string> := {
    "additionalProperties", "maxItems", "maxLength", "maximum",
    "minItems", "minLength", "minimum", "pattern"
  }

  const STRUCTURE: set<string> := {"$ref", "allOf", "anyOf", "const", "enum", "oneOf", "type"}

  /** Keywords that assert nothing where they stand. */
  const ANNOTATIONS: set<string> := {
    "$defs", "title", "description", "default", "examples", "deprecated", "$comment"
  }

  /**
   How a schema is read. The plain reading is the standard's. `full` also asks every object to
   fill exactly the properties its schema declares; keywords in `ignored` assert nothing.
   */
  datatype Reading = Reading(full: bool, ignored: set<string>)

  const PLAIN := Reading(false, {})
  const FULL := Reading(true, {})
  const UNCONSTRAINED := Reading(false, CONSTRAINTS)

  type Matcher = (string, string) -> bool
  type Definitions = map<string, Json>

  function Lookup(fields: map<string, Json>, key: string): Option<Json> {
    if key in fields then Some(fields[key]) else None
  }

  function FieldsOf(v: Option<Json>): map<string, Json> {
    if v.Some? && v.value.Obj? then v.value.fields else map[]
  }

  function Declared(fields: map<string, Json>): map<string, Json> {
    FieldsOf(Lookup(fields, "properties"))
  }

  function DefinitionsOf(root: Json): Definitions {
    if root.Obj? then FieldsOf(Lookup(root.fields, "$defs")) else map[]
  }

  function RefTo(name: string): string {
    "#/$defs/" + name
  }

  /** The definition name of a local reference. */
  function Target(ref: Json): Option<string> {
    if ref.Str? && |ref.s| >= 8 && ref.s[..8] == "#/$defs/" then Some(ref.s[8..]) else None
  }

  predicate HasType(name: string, v: Json) {
    match v
    case Null => name == "null"
    case Bool(_) => name == "boolean"
    case Num(n) => name == "number" || (name == "integer" && n == n.Floor as real)
    case Str(_) => name == "string"
    case Arr(_) => name == "array"
    case Obj(_) => name == "object"
  }

  /** The object keywords close a node exactly when it declares properties or has type object. */
  predicate Closes(fields: map<string, Json>) {
    (var p := Lookup(fields, "properties"); p.Some? && p.value.Obj?) ||
    Lookup(fields, "type") == Some(Str("object"))
  }

  predicate Filled(fields: map<string, Json>, v: Json) {
    (Closes(fields) && v.Obj? ==> v.fields.Keys == Declared(fields).Keys) &&
    (STRUCTURE !! fields.Keys ==> Scalar(v))
  }

  /** `fuel` bounds the references still to follow; some fuel accepts every accepted instance. */
  datatype Context = Context(reading: Reading, matcher: Matcher, defs: Definitions, fuel: nat)

  ghost function Next(c: Context): Context
    requires c.fuel > 0
  {
    c.(fuel := c.fuel - 1)
  }

  ghost predicate Accepts(c: Context, s: Json, v: Json)
    decreases c.fuel, s, 1
  {
    match s
    case Bool(b) => b
    case Obj(fields) =>
      (c.reading.full ==> Filled(fields, v)) &&
      forall k | k in fields && k !in c.reading.ignored :: Holds(c, s, k, v)
    case _ => false
  }

  ghost predicate Holds(c: Context, s: Json, k: string, v: Json)
    requires s.Obj? && k in s.fields
    decreases c.fuel, s, 0
  {
    var arg := s.fields[k];
    if k == "type" then
      (arg.Str? && HasType(arg.s, v)) ||
      (arg.Arr? && exists t | t in arg.items :: t.Str? && HasType(t.s, v))
    else if k == "properties" then
      arg.Obj? && (v.Obj? ==>
        forall name | name in arg.fields && name in v.fields ::
          Accepts(c, arg.fields[name], v.fields[name]))
    else if k == "required" then
      arg.Arr? && (v.Obj? ==> forall x | x in arg.items :: x.Str? && x.s in v.fields)
    else if k == "additionalProperties" then
      v.Obj? ==> forall name | name in v.fields && name !in Declared(s.fields) ::
        Accepts(c, arg, v.fields[name])
    else if k == "items" then
      v.Arr? ==> forall x | x in v.items :: Accepts(c, arg, x)
    else if k == "anyOf" then
      arg.Arr? && exists x | x in arg.items :: Accepts(c, x, v)
    else if k == "allOf" then
      arg.Arr? && forall x | x in arg.items :: Accepts(c, x, v)
    else if k == "enum" then
      arg.Arr? && v in arg.items
    else if k == "const" then
      v == arg
    else if k == "$ref" then
      c.fuel > 0 && Target(arg).Some? && Target(arg).value in c.defs &&
      Accepts(Next(c), c.defs[Target(arg).value], v)
    else
      Bounds(c.matcher, k, arg, v)
  }

  /** The assertions that look at one scalar argument; every other keyword is an annotation. */
  predicate Bounds(m: Matcher, k: string, arg: Json, v: Json) {
    if k == "minimum" then arg.Num? && (v.Num? ==> arg.n <= v.n)
    else if k == "maximum" then arg.Num? && (v.Num? ==> v.n <= arg.n)
    else if k == "minLength" then arg.Num? && (v.Str? ==> arg.n <= |v.s| as real)
    else if k == "maxLength" then arg.Num? && (v.Str? ==> |v.s| as real <= arg.n)
    else if k == "minItems" then arg.Num? && (v.Arr? ==> arg.n <= |v.items| as real)
    else if k == "maxItems" then arg.Num? && (v.Arr? ==> |v.items| as real <= arg.n)
    else if k == "pattern" then arg.Str? && (v.Str? ==> m(arg.s, v.s))
    else true
  }

  /** The schemas inside one keyword's argument. */
  ghost function Subschemas(k: string, arg: Json): (r: set<Json>)
    ensures forall c | c in r :: c == arg || c < arg
  {
    if k in {"properties", "$defs"} && arg.Obj? then
      set name | name in arg.fields :: arg.fields[name]
    else if k in {"items", "additionalProperties"} then
      {arg}
    else if k in {"anyOf", "allOf"} && arg.Arr? then
      set x | x in arg.items
    else
      {}
  }

  /** `p` holds of the schema `s` and of every schema inside it. */
  ghost predicate Everywhere(p: Json -> bool, s: Json)
    decreases s
  {
    p(s) && (s.Obj? ==>
      forall k | k in s.fields :: forall c | c in Subschemas(k, s.fields[k]) :: Everywhere(p, c))
  }

  lemma {:induction false} Inside(p: Json -> bool, s: Json, k: string, c: Json)
    requires Everywhere(p, s) && s.Obj? && k in s.fields && c in Subschemas(k, s.fields[k])
    ensures Everywhere(p, c) && c < s
  {
    assert s.fields[k] < s;
  }

  lemma {:induction false} InDefinitions(p: Json -> bool, root: Json)
    requires Everywhere(p, root)
    ensures forall name | name in DefinitionsOf(root) :: Everywhere(p, DefinitionsOf(root)[name])
  {
    forall name | name in DefinitionsOf(root) ensures Everywhere(p, DefinitionsOf(root)[name]) {
      assert DefinitionsOf(root)[name] in Subschemas("$defs", root.fields["$defs"]);
      Inside(p, root, "$defs", DefinitionsOf(root)[name]);
    }
  }

  /** Each keyword has an argument of the shape the standard asks; enum and const name scalars. */
  predicate WellFormed(s: Json) {
    s.Bool? || (s.Obj? && forall k | k in s.fields :: ArgumentFormed(k, s.fields[k]))
  }

  predicate ArgumentFormed(k: string, arg: Json) {
    if k in {"properties", "$defs"} then
      arg.Obj?
    else if k in {"items", "additionalProperties"} then
      arg.Obj? || arg.Bool?
    else if k in {"anyOf", "allOf"} then
      arg.Arr?
    else if k == "enum" then
      arg.Arr? && forall x | x in arg.items :: Scalar(x)
    else if k == "const" then
      Scalar(arg)
    else if k == "required" then
      arg.Arr? && AllStrings(arg.items)
    else if k == "type" then
      arg.Str? || (arg.Arr? && AllStrings(arg.items))
    else if k in {"$ref", "pattern"} then
      arg.Str?
    else if k in CONSTRAINTS then
      arg.Num?
    else
      k in ANNOTATIONS
  }

  /** A node that the strict translation closes requires only names it declares. */
  predicate RequiresDeclared(s: Json) {
    s.Obj? && Closes(s.fields) && "required" in s.fields && s.fields["required"].Arr? ==>
      forall x | x in s.fields["required"].items :: x.Str? && x.s in Declared(s.fields)
  }

  ghost predicate AcceptsDocument(r: Reading, m: Matcher, root: Json, v: Json) {
    exists fuel :: Accepts(Context(r, m, DefinitionsOf(root), fuel), root, v)
  }

  // Comparing two schemas, each in its own context.

  ghost predicate Within(c: Context, s: Json, d: Context, t: Json) {
    forall v :: Accepts(c, s, v) ==> Accepts(d, t, v)
  }

  ghost predicate Same(c: Context, s: Json, d: Context, t: Json) {
    forall v :: Accepts(c, s, v) <==> Accepts(d, t, v)
  }

  ghost predicate ArgumentWithin(c: Context, k: string, arg: Json, d: Context, brg: Json) {
    if k == "properties" then
      arg.Obj? ==>
        brg.Obj? && brg.fields.Keys <= arg.fields.Keys &&
        forall name | name in brg.fields :: Within(c, arg.fields[name], d, brg.fields[name])
    else if k in {"items", "additionalProperties"} then
      Within(c, arg, d, brg)
    else if k in {"anyOf", "allOf"} then
      arg.Arr? ==>
        brg.Arr? && |arg.items| == |brg.items| &&
        forall i | 0 <= i < |arg.items| :: Within(c, arg.items[i], d, brg.items[i])
    else if k == "$ref" then
      arg == brg && (c.fuel > 0 && Target(arg).Some? && Target(arg).value in c.defs ==>
        d.fuel > 0 && Target(arg).value in d.defs &&
        Within(Next(c), c.defs[Target(arg).value], Next(d), d.defs[Target(arg).value]))
    else
      arg == brg || k in ANNOTATIONS
  }

  lemma {:induction false} HoldsWithin(c: Context, s: Json, d: Context, t: Json, k: string, v: Json)
    requires c.matcher == d.matcher
    requires s.Obj? && t.Obj? && k in s.fields && k in t.fields
    requires ArgumentWithin(c, k, s.fields[k], d, t.fields[k])
    requires k == "additionalProperties" ==> Declared(s.fields).Keys <= Declared(t.fields).Keys
    requires Holds(c, s, k, v)
    ensures Holds(d, t, k, v)
  {
    var arg, brg := s.fields[k], t.fields[k];
    if k == "properties" {
      forall name | name in brg.fields && v.Obj? && name in v.fields
        ensures Accepts(d, brg.fields[name], v.fields[name])
      {
        assert Accepts(c, arg.fields[name], v.fields[name]);
      }
    } else if k == "anyOf" {
      var i :| 0 <= i < |arg.items| && Accepts(c, arg.items[i], v);
      assert brg.items[i] in brg.items && Accepts(d, brg.items[i], v);
    } else if k == "allOf" {
      forall i | 0 <= i < |brg.items| ensures Accepts(d, brg.items[i], v) {
        assert arg.items[i] in arg.items;
      }
    } else if k in {"items", "additionalProperties"} {
      assert forall x :: Accepts(c, arg, x) ==> Accepts(d, brg, x);
    } else {
    }
  }

  predicate Weaker(r: Reading, stronger: Reading) {
    (r.full ==> stronger.full) && stronger.ignored <= r.ignored
  }

  /** A reading that asks for less accepts at least as much. */
  lemma {:induction false} WeakerAccepts(c: Context, weaker: Reading, s: Json)
    requires Weaker(weaker, c.reading)
    ensures Within(c, s, c.(reading := weaker), s)
    decreases c.fuel, s
  {
    var d := c.(reading := weaker);
    if s.Obj? {
      forall k | k in s.fields ensures ArgumentWithin(c, k, s.fields[k], d, s.fields[k]) {
        forall x | x in Subschemas(k, s.fields[k]) ensures Within(c, x, d, x) {
          WeakerAccepts(c, weaker, x);
        }
        if k == "$ref" && c.fuel > 0 && Target(s.fields[k]).Some? && Target(s.fields[k]).value in c.defs {
          WeakerAccepts(Next(c), weaker, c.defs[Target(s.fields[k]).value]);
        }
        UnchangedArgument(c, k, s.fields[k], d);
      }
      forall v | Accepts(c, s, v) ensures Accepts(d, s, v) {
        forall k | k in s.fields && k !in weaker.ignored ensures Holds(d, s, k, v) {
          HoldsWithin(c, s, d, s, k, v);
        }
      }
    }
  }

  lemma {:induction false} UnchangedArgument(c: Context, k: string, arg: Json, d: Context)
    requires forall x | x in Subschemas(k, arg) :: Within(c, x, d, x)
    requires k == "$ref" && c.fuel > 0 && Target(arg).Some? && Target(arg).value in c.defs ==>
      d.fuel > 0 && Target(arg).value in d.defs &&
      Within(Next(c), c.defs[Target(arg).value], Next(d), d.defs[Target(arg).value])
    ensures ArgumentWithin(c, k, arg, d, arg)
  {
    if k == "properties" && arg.Obj? {
      assert forall name | name in arg.fields :: arg.fields[name] in Subschemas(k, arg);
    } else if k in {"items", "additionalProperties"} {
      assert arg in Subschemas(k, arg);
    } else if k in {"anyOf", "allOf"} && arg.Arr? {
      assert forall i | 0 <= i < |arg.items| :: arg.items[i] in Subschemas(k, arg);
    }
  }

  // One keyword at a time.

  lemma {:induction false} TypeHolds(c: Context, s: Json, name: string, v: Json)
    requires s.Obj? && "type" in s.fields && s.fields["type"] == Str(name)
    ensures Holds(c, s, "type", v) <==> HasType(name, v)
  {
  }

  lemma {:induction false} PropertiesHold(c: Context, s: Json, properties: map<string, Json>, v: Json)
    requires s.Obj? && "properties" in s.fields && s.fields["properties"] == Obj(properties)
    ensures Holds(c, s, "properties", v) <==>
            (v.Obj? ==> forall k | k in properties && k in v.fields :: Accepts(c, properties[k], v.fields[k]))
  {
  }

  lemma {:induction false} UnionHolds(c: Context, s: Json, members: seq<Json>, v: Json)
    requires s.Obj? && "anyOf" in s.fields && s.fields["anyOf"] == Arr(members)
    ensures Holds(c, s, "anyOf", v) <==> exists x | x in members :: Accepts(c, x, v)
  {
  }

  lemma {:induction false} RequiredName(c: Context, s: Json, name: string, v: Json)
    requires s.Obj? && v.Obj? && "required" in s.fields && Holds(c, s, "required", v)
    requires s.fields["required"].Arr? && Str(name) in s.fields["required"].items
    ensures name in v.fields
  {
  }

  lemma {:induction false} RequiredNames(c: Context, s: Json, names: set<string>, v: Json)
    requires s.Obj? && "required" in s.fields && s.fields["required"] == Names(names)
    ensures Holds(c, s, "required", v) <==> (v.Obj? ==> names <= v.fields.Keys)
  {
    if v.Obj? && Holds(c, s, "required", v) {
      forall k | k in names ensures k in v.fields {
        RequiredName(c, s, k, v);
      }
    }
  }
}
