module StrictSchema {
  import opened Json
  import opened Schema

  const SCALARS: Json := Arr([
    Obj(map["type" := Str("string")]),
    Obj(map["type" := Str("number")]),
    Obj(map["type" := Str("boolean")]),
    Obj(map["type" := Str("null")])
  ])

  function Strict(v: Json): Json
    decreases v, 1
  {
    match v
    case Arr(xs) => Arr(seq(|xs|, i requires 0 <= i < |xs| => Strict(xs[i])))
    case Obj(fields) => Obj(Close(Typed(StrictArguments(v))))
    case _ => v
  }

  function StrictArguments(v: Json): map<string, Json>
    requires v.Obj?
    decreases v, 0
  {
    map k | k in v.fields && k != "default" :: StrictArgument(k, v.fields[k])
  }

  function StrictArgument(key: string, arg: Json): Json
    decreases arg, 2
  {
    if key in {"$defs", "properties"} && arg.Obj? then
      Obj(map name | name in arg.fields :: Strict(arg.fields[name]))
    else
      Strict(arg)
  }

  /** A node with no structural keyword becomes a union of the scalar types. */
  function Typed(fields: map<string, Json>): map<string, Json> {
    if STRUCTURE !! fields.Keys then fields["anyOf" := SCALARS] else fields
  }

  function Close(fields: map<string, Json>): map<string, Json> {
    if "properties" in fields && fields["properties"].Obj? then
      fields["required" := Names(fields["properties"].fields.Keys)]["additionalProperties" := Bool(false)]
    else if Lookup(fields, "type") == Some(Str("object")) then
      fields["properties" := Obj(map[])]["required" := Arr([])]["additionalProperties" := Bool(false)]
    else
      fields
  }

  method StrictResponseSchema(value: Json) returns (r: Json)
    ensures r == Strict(value)
    decreases value, 1
  {
    match value
    case Arr(xs) =>
      var items: seq<Json> := [];
      for i := 0 to |xs|
        invariant |items| == i && forall j | 0 <= j < i :: items[j] == Strict(xs[j])
      {
        var item := StrictResponseSchema(xs[i]);
        items := items + [item];
      }
      r := Arr(items);
    case Obj(_) =>
      var normalised := StrictKeywords(value);
      if STRUCTURE !! normalised.Keys {
        normalised := normalised["anyOf" := SCALARS];
      }
      var closed := CloseNode(normalised);
      ClosedAlike(normalised, closed);
      r := Obj(closed);
    case _ =>
      r := value;
  }

  method StrictKeywords(value: Json) returns (normalised: map<string, Json>)
    requires value.Obj?
    ensures normalised == StrictArguments(value)
    decreases value, 0
  {
    var fields, keys := value.fields, value.fields.Keys;
    normalised := map[];
    while keys != {}
      invariant keys <= fields.Keys
      invariant normalised.Keys == fields.Keys - keys - {"default"}
      invariant forall k | k in normalised :: normalised[k] == StrictArgument(k, fields[k])
      decreases keys
    {
      var key :| key in keys;
      keys := keys - {key};
      if key != "default" {
        var argument;
        if key in {"$defs", "properties"} && fields[key].Obj? {
          argument := StrictMembers(fields[key]);
        } else {
          argument := StrictResponseSchema(fields[key]);
        }
        normalised := normalised[key := argument];
      }
    }
  }

  /** A node with properties or of type object comes out closed over the same properties; no other key changes. */
  method CloseNode(fields: map<string, Json>) returns (closed: map<string, Json>)
    ensures Closes(fields) ==> ClosedForm(closed) && Declared(closed) == Declared(fields)
    ensures Closes(fields) ==> closed.Keys == fields.Keys + OBJECT
    ensures Closes(fields) ==> forall k | k in fields.Keys - OBJECT :: closed[k] == fields[k]
    ensures !Closes(fields) ==> closed == fields
  {
    closed := fields;
    if "properties" in closed && closed["properties"].Obj? {
      closed := closed["required" := Names(closed["properties"].fields.Keys)];
      closed := closed["additionalProperties" := Bool(false)];
    } else if "type" in closed && closed["type"] == Str("object") {
      closed := closed["properties" := Obj(map[])];
      closed := closed["required" := Arr([])];
      closed := closed["additionalProperties" := Bool(false)];
    }
  }

  method StrictMembers(value: Json) returns (r: Json)
    requires value.Obj?
    ensures r == Obj(map name | name in value.fields :: Strict(value.fields[name]))
    decreases value, 0
  {
    var members: map<string, Json>, names := map[], value.fields.Keys;
    while names != {}
      invariant names <= value.fields.Keys
      invariant members == map name | name in value.fields && name !in names :: Strict(value.fields[name])
      decreases names
    {
      var name :| name in names;
      names := names - {name};
      var member := StrictResponseSchema(value.fields[name]);
      members := members[name := member];
    }
    r := Obj(members);
  }

  const OBJECT: set<string> := {"properties", "required", "additionalProperties"}

  lemma {:induction false} ClosedAlike(fields: map<string, Json>, closed: map<string, Json>)
    requires Closes(fields) ==> ClosedForm(closed) && Declared(closed) == Declared(fields)
    requires Closes(fields) ==> closed.Keys == fields.Keys + OBJECT
    requires Closes(fields) ==> forall k | k in fields.Keys - OBJECT :: closed[k] == fields[k]
    requires !Closes(fields) ==> closed == fields
    ensures closed == Close(fields)
  {
    if Closes(fields) {
      assert closed["properties"] == Obj(Declared(fields)) == Close(fields)["properties"];
      assert forall k | k in closed :: k in Close(fields) && closed[k] == Close(fields)[k];
    }
  }

  ghost predicate ClosedForm(fields: map<string, Json>) {
    "properties" in fields && fields["properties"].Obj? &&
    Lookup(fields, "required") == Some(Names(fields["properties"].fields.Keys)) &&
    Lookup(fields, "additionalProperties") == Some(Bool(false))
  }

  ghost predicate StrictForm(v: Json)
    decreases v, 0
  {
    match v
    case Arr(xs) => forall x | x in xs :: StrictForm(x)
    case Obj(fields) =>
      "default" !in fields &&
      !(STRUCTURE !! fields.Keys) &&
      (Closes(fields) ==> ClosedForm(fields)) &&
      forall k | k in fields :: StrictFormArgument(k, fields[k])
    case _ => true
  }

  ghost predicate StrictFormArgument(key: string, arg: Json)
    decreases arg, 1
  {
    if key in {"$defs", "properties"} && arg.Obj? then
      forall name | name in arg.fields :: StrictForm(arg.fields[name])
    else
      StrictForm(arg)
  }

  ghost predicate Arguments(fields: map<string, Json>) {
    "default" !in fields && forall k | k in fields :: StrictFormArgument(k, fields[k])
  }

  lemma {:induction false} TypedKeepsArguments(fields: map<string, Json>)
    requires Arguments(fields)
    ensures Arguments(Typed(fields)) && !(STRUCTURE !! Typed(fields).Keys)
  {
    if STRUCTURE !! fields.Keys {
      assert forall x | x in SCALARS.items :: StrictForm(x);
      assert "anyOf" in STRUCTURE * Typed(fields).Keys;
    }
  }

  lemma {:induction false} CloseKeepsArguments(fields: map<string, Json>)
    requires Arguments(fields)
    ensures Arguments(Close(fields))
  {
    var closed := Close(fields);
    forall k | k in closed ensures StrictFormArgument(k, closed[k]) {
      if k in fields && closed[k] == fields[k] {
      } else {
        assert k in {"properties", "required", "additionalProperties"};
      }
    }
  }

  lemma {:induction false} CloseCloses(fields: map<string, Json>)
    ensures Closes(Close(fields)) ==> ClosedForm(Close(fields))
  {
  }

  lemma {:induction false} ClosedIsStrictForm(fields: map<string, Json>)
    requires Arguments(fields) && !(STRUCTURE !! fields.Keys)
    ensures StrictForm(Obj(Close(fields)))
  {
    CloseKeepsArguments(fields);
    CloseCloses(fields);
    assert fields.Keys <= Close(fields).Keys;
  }

  lemma {:induction false} StrictIsStrictForm(v: Json)
    ensures StrictForm(Strict(v))
    decreases v, 0
  {
    match v
    case Arr(xs) =>
      forall i | 0 <= i < |xs| { StrictIsStrictForm(xs[i]); }
    case Obj(fields) =>
      forall k | k in fields { StrictArgumentIsStrictForm(k, fields[k]); }
      var arguments := StrictArguments(v);
      TypedKeepsArguments(arguments);
      ClosedIsStrictForm(Typed(arguments));
    case _ =>
  }

  lemma {:induction false} StrictArgumentIsStrictForm(key: string, arg: Json)
    ensures StrictFormArgument(key, StrictArgument(key, arg))
    decreases arg, 1
  {
    if key in {"$defs", "properties"} && arg.Obj? {
      forall name | name in arg.fields { StrictIsStrictForm(arg.fields[name]); }
    } else {
      StrictIsStrictForm(arg);
      assert StrictArgument(key, arg).Obj? == arg.Obj?;
    }
  }

  lemma {:induction false} StrictNodeIsKept(fields: map<string, Json>)
    requires StrictForm(Obj(fields))
    ensures Close(Typed(fields)) == fields
  {
  }

  lemma {:induction false} StrictFormIsFixed(v: Json)
    requires StrictForm(v)
    ensures Strict(v) == v
    decreases v, 0
  {
    match v
    case Arr(xs) =>
      forall i | 0 <= i < |xs| { StrictFormIsFixed(xs[i]); }
    case Obj(fields) =>
      var arguments := StrictArguments(v);
      assert arguments == fields by {
        forall k | k in fields { StrictFormArgumentIsFixed(k, fields[k]); }
      }
      StrictNodeIsKept(fields);
    case _ =>
  }

  lemma {:induction false} StrictFormArgumentIsFixed(key: string, arg: Json)
    requires StrictFormArgument(key, arg)
    ensures StrictArgument(key, arg) == arg
    decreases arg, 1
  {
    if key in {"$defs", "properties"} && arg.Obj? {
      forall name | name in arg.fields { StrictFormIsFixed(arg.fields[name]); }
    } else {
      StrictFormIsFixed(arg);
    }
  }

  /** The translator's fixed points are exactly the schemas strict mode accepts. */
  lemma {:induction false} StrictFixedPoints(v: Json)
    ensures StrictForm(v) <==> Strict(v) == v
    ensures Strict(Strict(v)) == Strict(v)
  {
    StrictIsStrictForm(v);
    StrictFormIsFixed(Strict(v));
    if StrictForm(v) { StrictFormIsFixed(v); }
  }

  // What the translation does to the accepted set.

  function StrictDefinitions(defs: Definitions): Definitions {
    map name | name in defs :: Strict(defs[name])
  }

  ghost predicate Translatable(s: Json) {
    Everywhere(WellFormed, s) && Everywhere(RequiresDeclared, s)
  }

  lemma {:induction false} StructureKept(s: Json)
    requires s.Obj?
    ensures STRUCTURE !! StrictArguments(s).Keys <==> STRUCTURE !! s.fields.Keys
  {
  }

  lemma {:induction false} TypeKept(s: Json)
    requires s.Obj? && WellFormed(s)
    ensures Lookup(Typed(StrictArguments(s)), "type") == Some(Str("object"))
       <==> Lookup(s.fields, "type") == Some(Str("object"))
  {
    if "type" in s.fields {
      assert StrictArguments(s)["type"] == Strict(s.fields["type"]);
    }
  }

  lemma {:induction false} PropertiesKept(s: Json)
    requires s.Obj? && WellFormed(s)
    ensures "properties" in Typed(StrictArguments(s)) <==> "properties" in s.fields
    ensures "properties" in s.fields ==> Typed(StrictArguments(s))["properties"].Obj?
    ensures Declared(Typed(StrictArguments(s))).Keys == Declared(s.fields).Keys
  {
  }

  lemma {:induction false} CloseFields(fields: map<string, Json>)
    requires "properties" in fields ==> fields["properties"].Obj?
    ensures Closes(Close(fields)) == Closes(fields)
    ensures Declared(Close(fields)).Keys == Declared(fields).Keys
    ensures forall k | k in fields ::
      k in Close(fields) && (Close(fields)[k] == fields[k] ||
                             (Closes(fields) && k in {"required", "additionalProperties"}))
    ensures forall k | k in Close(fields) ::
      k in fields || (k in {"properties", "required", "additionalProperties"} && Closes(fields))
    ensures Closes(fields) ==>
      (var close := Close(fields);
       close["required"] == Names(Declared(fields).Keys) && close["additionalProperties"] == Bool(false))
  {
  }

  lemma {:induction false} StrictFields(s: Json, k: string)
    requires s.Obj? && WellFormed(s)
    ensures k in s.fields && k != "default" && !Replaced(s, k) ==>
      k in Strict(s).fields && Strict(s).fields[k] == StrictArgument(k, s.fields[k])
    ensures k in Strict(s).fields ==>
      (k in s.fields && k != "default") || Replaced(s, k) ||
      (k == "anyOf" && STRUCTURE !! s.fields.Keys && Strict(s).fields[k] == SCALARS) ||
      (k == "properties" && Closes(s.fields) && Strict(s).fields[k] == Obj(map[]))
    ensures Closes(Strict(s).fields) == Closes(s.fields)
    ensures Declared(Strict(s).fields).Keys == Declared(s.fields).Keys
    ensures Closes(s.fields) ==>
      Lookup(Strict(s).fields, "required") == Some(Names(Declared(s.fields).Keys)) &&
      Lookup(Strict(s).fields, "additionalProperties") == Some(Bool(false))
    ensures STRUCTURE !! s.fields.Keys ==> Lookup(Strict(s).fields, "anyOf") == Some(SCALARS)
  {
    StructureKept(s);
    TypeKept(s);
    PropertiesKept(s);
    CloseFields(Typed(StrictArguments(s)));
  }

  ghost predicate Replaced(s: Json, k: string) {
    s.Obj? && Closes(s.fields) && k in {"required", "additionalProperties"}
  }

  ghost predicate FullStrictPair(c: Context, d: Context) {
    c.reading == FULL && d == c.(reading := PLAIN, defs := StrictDefinitions(c.defs)) &&
    forall name | name in c.defs :: Translatable(c.defs[name])
  }

  ghost predicate Kept(s: Json, k: string) {
    s.Obj? && k in s.fields && k in Strict(s).fields &&
    Strict(s).fields[k] == StrictArgument(k, s.fields[k]) && ArgumentFormed(k, s.fields[k])
  }

  lemma {:induction false} ScalarArgumentsKept(k: string, arg: Json)
    requires ArgumentFormed(k, arg) && k !in ANNOTATIONS
    requires k !in {"properties", "items", "additionalProperties", "anyOf", "allOf"}
    ensures StrictArgument(k, arg) == arg
  {
    if arg.Arr? {
      forall i | 0 <= i < |arg.items| ensures Strict(arg.items[i]) == arg.items[i] {
        assert arg.items[i] in arg.items;
      }
    }
  }

  lemma {:induction false} ArgumentAgrees(c: Context, d: Context, k: string, arg: Json)
    requires ArgumentFormed(k, arg) && FullStrictPair(c, d)
    requires forall x | x in Subschemas(k, arg) :: Same(c, x, d, Strict(x))
    requires c.fuel > 0 ==>
      forall name | name in c.defs :: Same(Next(c), c.defs[name], Next(d), d.defs[name])
    ensures ArgumentWithin(c, k, arg, d, StrictArgument(k, arg))
    ensures ArgumentWithin(d, k, StrictArgument(k, arg), c, arg)
  {
    if k == "properties" {
      assert forall name | name in arg.fields :: arg.fields[name] in Subschemas(k, arg);
    } else if k in {"items", "additionalProperties"} {
      assert arg in Subschemas(k, arg);
      assert StrictArgument(k, arg) == Strict(arg);
    } else if k in {"anyOf", "allOf"} {
      assert forall i | 0 <= i < |arg.items| :: arg.items[i] in Subschemas(k, arg);
      assert StrictArgument(k, arg) == Strict(arg);
    } else if k !in ANNOTATIONS {
      ScalarArgumentsKept(k, arg);
    }
  }

  lemma {:induction false} TypeAccepts(c: Context, name: string, v: Json)
    requires c.reading == PLAIN
    ensures Accepts(c, Obj(map["type" := Str(name)]), v) <==> HasType(name, v)
  {
    var s := Obj(map["type" := Str(name)]);
    assert s.fields.Keys == {"type"};
    TypeHolds(c, s, name, v);
  }

  lemma {:induction false} SomeScalarAccepts(c: Context, v: Json)
    requires c.reading == PLAIN
    ensures (exists x | x in SCALARS.items :: Accepts(c, x, v)) <==> Scalar(v)
  {
    TypeAccepts(c, "string", v);
    TypeAccepts(c, "number", v);
    TypeAccepts(c, "boolean", v);
    TypeAccepts(c, "null", v);
    var xs := SCALARS.items;
    assert xs[0] in xs && xs[1] in xs && xs[2] in xs && xs[3] in xs;
  }

  lemma {:induction false} ScalarsAcceptScalars(c: Context, s: Json, v: Json)
    requires c.reading == PLAIN && s.Obj? && Lookup(s.fields, "anyOf") == Some(SCALARS)
    ensures Holds(c, s, "anyOf", v) <==> Scalar(v)
  {
    UnionHolds(c, s, SCALARS.items, v);
    SomeScalarAccepts(c, v);
  }

  lemma {:induction false} ClosedHasNoExtra(c: Context, s: Json, v: Json, name: string)
    requires s.Obj? && v.Obj? && "additionalProperties" in s.fields && Holds(c, s, "additionalProperties", v)
    requires s.fields["additionalProperties"] == Bool(false) && name in v.fields
    ensures name in Declared(s.fields)
  {
  }

  lemma {:induction false} ClosedAcceptsDeclared(c: Context, s: Json, v: Json)
    requires c.reading == PLAIN && s.Obj? && v.Obj? && Accepts(c, s, v)
    requires Lookup(s.fields, "required") == Some(Names(Declared(s.fields).Keys))
    requires Lookup(s.fields, "additionalProperties") == Some(Bool(false))
    ensures v.fields.Keys == Declared(s.fields).Keys
  {
    forall name | name in Declared(s.fields) ensures name in v.fields {
      RequiredName(c, s, name, v);
    }
    forall name | name in v.fields ensures name in Declared(s.fields) {
      ClosedHasNoExtra(c, s, v, name);
    }
  }

  lemma {:induction false} StrictAcceptsFilled(c: Context, s: Json, v: Json)
    requires c.reading == PLAIN && s.Obj? && WellFormed(s) && Accepts(c, Strict(s), v)
    ensures Filled(s.fields, v)
  {
    StrictFields(s, "required");
    if STRUCTURE !! s.fields.Keys {
      assert Holds(c, Strict(s), "anyOf", v);
      ScalarsAcceptScalars(c, Strict(s), v);
    }
    if Closes(s.fields) && v.Obj? {
      ClosedAcceptsDeclared(c, Strict(s), v);
    }
  }

  ghost predicate ArgumentsAgree(c: Context, d: Context, s: Json) {
    s.Obj? && Translatable(s) && FullStrictPair(c, d) &&
    forall k | k in s.fields && k != "default" && !Replaced(s, k) ::
      Kept(s, k) &&
      ArgumentWithin(c, k, s.fields[k], d, StrictArgument(k, s.fields[k])) &&
      ArgumentWithin(d, k, StrictArgument(k, s.fields[k]), c, s.fields[k])
  }

  lemma {:induction false} FullKeywordIsStrict(c: Context, d: Context, s: Json, k: string, v: Json)
    requires ArgumentsAgree(c, d, s) && Filled(s.fields, v) && k in Strict(s).fields
    requires k in s.fields ==> Holds(c, s, k, v)
    ensures Holds(d, Strict(s), k, v)
  {
    StrictFields(s, k);
    if k in s.fields && k != "default" && !Replaced(s, k) {
      HoldsWithin(c, s, d, Strict(s), k, v);
    } else if k == "anyOf" {
      ScalarsAcceptScalars(d, Strict(s), v);
    } else if k == "required" {
      RequiredNames(d, Strict(s), Declared(s.fields).Keys, v);
    }
  }

  lemma {:induction false} FullIsStrict(c: Context, d: Context, s: Json, v: Json)
    requires ArgumentsAgree(c, d, s) && Accepts(c, s, v)
    ensures Accepts(d, Strict(s), v)
  {
    forall k | k in Strict(s).fields ensures Holds(d, Strict(s), k, v) {
      assert k in s.fields ==> Holds(c, s, k, v);
      FullKeywordIsStrict(c, d, s, k, v);
    }
  }

  lemma {:induction false} StrictIsFull(c: Context, d: Context, s: Json, v: Json)
    requires ArgumentsAgree(c, d, s) && Accepts(d, Strict(s), v)
    ensures Accepts(c, s, v)
  {
    StrictAcceptsFilled(d, s, v);
    forall k | k in s.fields ensures Holds(c, s, k, v) {
      if Replaced(s, k) {
        assert RequiresDeclared(s) && ArgumentFormed(k, s.fields[k]);
      } else if k != "default" {
        StrictFields(s, k);
        HoldsWithin(d, Strict(s), c, s, k, v);
      }
    }
  }

  lemma {:induction false} StrictReads(c: Context, d: Context, s: Json)
    requires Translatable(s) && FullStrictPair(c, d)
    ensures Same(c, s, d, Strict(s))
    decreases c.fuel, s
  {
    if s.Obj? {
      if c.fuel > 0 {
        forall name | name in c.defs ensures Same(Next(c), c.defs[name], Next(d), d.defs[name]) {
          StrictReads(Next(c), Next(d), c.defs[name]);
        }
      }
      forall k | k in s.fields && k != "default" && !Replaced(s, k)
        ensures Kept(s, k)
        ensures ArgumentWithin(c, k, s.fields[k], d, StrictArgument(k, s.fields[k]))
        ensures ArgumentWithin(d, k, StrictArgument(k, s.fields[k]), c, s.fields[k])
      {
        StrictFields(s, k);
        forall x | x in Subschemas(k, s.fields[k]) ensures Same(c, x, d, Strict(x)) {
          Inside(WellFormed, s, k, x);
          Inside(RequiresDeclared, s, k, x);
          StrictReads(c, d, x);
        }
        ArgumentAgrees(c, d, k, s.fields[k]);
      }
      forall v ensures Accepts(c, s, v) <==> Accepts(d, Strict(s), v) {
        if Accepts(c, s, v) { FullIsStrict(c, d, s, v); }
        if Accepts(d, Strict(s), v) { StrictIsFull(c, d, s, v); }
      }
    }
  }

  ghost predicate TranslatableDocument(root: Json) {
    Translatable(root) && root.Obj?
  }

  lemma {:induction false} DefinitionsTranslate(root: Json)
    requires TranslatableDocument(root)
    ensures DefinitionsOf(Strict(root)) == StrictDefinitions(DefinitionsOf(root))
    ensures forall name | name in DefinitionsOf(root) :: Translatable(DefinitionsOf(root)[name])
  {
    StrictFields(root, "$defs");
    InDefinitions(WellFormed, root);
    InDefinitions(RequiresDeclared, root);
    assert WellFormed(root);
    if "$defs" in root.fields {
      assert ArgumentFormed("$defs", root.fields["$defs"]);
    }
  }

  /**
   The strict document accepts exactly the instances of the original that fill every declared
   property and nothing else; in particular it accepts no instance the original rejects.
   */
  lemma {:induction false} StrictOnlyTightens(m: Matcher, root: Json, v: Json)
    requires TranslatableDocument(root)
    ensures AcceptsDocument(PLAIN, m, Strict(root), v) <==> AcceptsDocument(FULL, m, root, v)
    ensures AcceptsDocument(PLAIN, m, Strict(root), v) ==> AcceptsDocument(PLAIN, m, root, v)
  {
    DefinitionsTranslate(root);
    var defs := DefinitionsOf(root);
    forall fuel: nat
      ensures Accepts(Context(FULL, m, defs, fuel), root, v) <==>
              Accepts(Context(PLAIN, m, StrictDefinitions(defs), fuel), Strict(root), v)
    {
      StrictReads(Context(FULL, m, defs, fuel), Context(PLAIN, m, StrictDefinitions(defs), fuel), root);
    }
    if AcceptsDocument(FULL, m, root, v) {
      var fuel :| Accepts(Context(FULL, m, defs, fuel), root, v);
      WeakerAccepts(Context(FULL, m, defs, fuel), PLAIN, root);
      assert Accepts(Context(PLAIN, m, defs, fuel), root, v);
    }
  }

  /**
   The condition on `required` is needed: where a closed root requires a name it does not declare,
   the translation drops that demand, and every object it accepts is one the original rejects.
   */
  lemma {:induction false} UndeclaredRequiredIsLost(m: Matcher, root: Json, v: Json)
    requires root.Obj? && WellFormed(root) && !RequiresDeclared(root)
    requires v.Obj? && AcceptsDocument(PLAIN, m, Strict(root), v)
    ensures !AcceptsDocument(PLAIN, m, root, v)
  {
    var fuel :| Accepts(Context(PLAIN, m, DefinitionsOf(Strict(root)), fuel), Strict(root), v);
    StrictAcceptsFilled(Context(PLAIN, m, DefinitionsOf(Strict(root)), fuel), root, v);
    var required := root.fields["required"];
    assert ArgumentFormed("required", required);
    var x :| x in required.items && x.Str? && x.s !in Declared(root.fields);
    forall f: nat ensures !Accepts(Context(PLAIN, m, DefinitionsOf(root), f), root, v) {
      assert !Holds(Context(PLAIN, m, DefinitionsOf(root), f), root, "required", v);
    }
  }

  /** Every node inside the root, and none needs more than that of the root itself. */
  ghost predicate TranslatableInside(root: Json) {
    root.Obj? && WellFormed(root) &&
    forall k, x | k in root.fields && x in Subschemas(k, root.fields[k]) :: Translatable(x)
  }

  function Unrequired(root: Json): Json
    requires root.Obj?
  {
    Obj(root.fields - {"required"})
  }

  lemma {:induction false} EverywhereNode(p: Json -> bool, s: Json)
    requires s.Obj? && p(s) && forall k, x | k in s.fields && x in Subschemas(k, s.fields[k]) :: Everywhere(p, x)
    ensures Everywhere(p, s)
  {
  }

  lemma {:induction false} InsideTranslates(root: Json)
    requires TranslatableInside(root) && RequiresDeclared(root)
    ensures TranslatableDocument(root)
  {
    forall k, x | k in root.fields && x in Subschemas(k, root.fields[k])
      ensures Everywhere(WellFormed, x) && Everywhere(RequiresDeclared, x)
    {
      assert Translatable(x);
    }
    EverywhereNode(WellFormed, root);
    EverywhereNode(RequiresDeclared, root);
  }

  /** A closed root is translated alike with or without what it requires. */
  lemma {:induction false} UnrequiredTranslates(root: Json)
    requires TranslatableInside(root) && Closes(root.fields)
    ensures TranslatableDocument(Unrequired(root)) && Strict(Unrequired(root)) == Strict(root)
    ensures DefinitionsOf(Unrequired(root)) == DefinitionsOf(root)
  {
    var free := Unrequired(root);
    assert forall k | k in free.fields :: k in root.fields && free.fields[k] == root.fields[k];
    InsideTranslates(free);
    UnrequiredStrict(root);
  }

  lemma {:induction false} UnrequiredStrict(root: Json)
    requires TranslatableInside(root) && Closes(root.fields)
    ensures Strict(Unrequired(root)) == Strict(root)
  {
    var with, without := Typed(StrictArguments(root)), Typed(StrictArguments(Unrequired(root)));
    UnrequiredArguments(root);
    TypeKept(root);
    PropertiesKept(root);
    ClosesAlike(with);
  }

  lemma {:induction false} UnrequiredArguments(root: Json)
    requires root.Obj?
    ensures Typed(StrictArguments(Unrequired(root))) == Typed(StrictArguments(root)) - {"required"}
  {
    assert StrictArguments(Unrequired(root)) == StrictArguments(root) - {"required"};
  }

  lemma {:induction false} ClosesAlike(fields: map<string, Json>)
    requires Closes(fields)
    ensures Close(fields - {"required"}) == Close(fields)
  {
  }

  /** What is required does not matter to anything but an object. */
  lemma {:induction false} UnrequiredAccepts(c: Context, root: Json, v: Json)
    requires root.Obj? && WellFormed(root) && c.reading == PLAIN && !v.Obj? && Accepts(c, Unrequired(root), v)
    ensures Accepts(c, root, v)
  {
    var free := Unrequired(root);
    forall k | k in root.fields ensures Holds(c, root, k, v) {
      assert ArgumentFormed(k, root.fields[k]);
      if k != "required" {
        assert free.fields[k] == root.fields[k] && Holds(c, free, k, v);
      }
    }
  }

  /**
   With every inner node translatable, the translation only tightens exactly when the root requires
   no undeclared name or its strict form accepts no object at all.
   */
  lemma {:induction false} RootTightensExactly(m: Matcher, root: Json)
    requires TranslatableInside(root)
    ensures
      (forall v :: AcceptsDocument(PLAIN, m, Strict(root), v) ==> AcceptsDocument(PLAIN, m, root, v)) <==>
      RequiresDeclared(root) || forall v: Json | v.Obj? :: !AcceptsDocument(PLAIN, m, Strict(root), v)
  {
    if RequiresDeclared(root) {
      InsideTranslates(root);
      forall v | AcceptsDocument(PLAIN, m, Strict(root), v) ensures AcceptsDocument(PLAIN, m, root, v) {
        StrictOnlyTightens(m, root, v);
      }
    } else {
      forall v: Json | v.Obj? && AcceptsDocument(PLAIN, m, Strict(root), v) ensures !AcceptsDocument(PLAIN, m, root, v) {
        UndeclaredRequiredIsLost(m, root, v);
      }
      forall v: Json | !v.Obj? && AcceptsDocument(PLAIN, m, Strict(root), v) ensures AcceptsDocument(PLAIN, m, root, v) {
        UnrequiredTightens(m, root, v);
      }
    }
  }

  lemma {:induction false} UnrequiredTightens(m: Matcher, root: Json, v: Json)
    requires TranslatableInside(root) && Closes(root.fields) && !v.Obj? && AcceptsDocument(PLAIN, m, Strict(root), v)
    ensures AcceptsDocument(PLAIN, m, root, v)
  {
    UnrequiredTranslates(root);
    StrictOnlyTightens(m, Unrequired(root), v);
    var fuel :| Accepts(Context(PLAIN, m, DefinitionsOf(root), fuel), Unrequired(root), v);
    UnrequiredAccepts(Context(PLAIN, m, DefinitionsOf(root), fuel), root, v);
  }

  predicate RequiresUndeclared(root: Json) {
    root == Obj(map["type" := Str("object"), "required" := Arr([Str("a")])])
  }

  lemma {:induction false} UndeclaredParts(root: Json)
    requires RequiresUndeclared(root)
    ensures TranslatableInside(root) && Closes(root.fields) && !RequiresDeclared(root)
    ensures Unrequired(root).fields == map["type" := Str("object")]
  {
    var required := root.fields["required"];
    assert required.items[0] in required.items;
  }

  lemma {:induction false} FreeAcceptsEmpty(m: Matcher, free: Json)
    requires free.Obj? && free.fields == map["type" := Str("object")]
    ensures AcceptsDocument(FULL, m, free, Obj(map[]))
  {
    var c := Context(FULL, m, DefinitionsOf(free), 0);
    TypeHolds(c, free, "object", Obj(map[]));
    assert Accepts(c, free, Obj(map[]));
  }

  /** An object schema that requires a name it does not declare: once strict it accepts the empty object. */
  lemma {:induction false} EmptyObjectSlipsIn(m: Matcher, root: Json)
    requires RequiresUndeclared(root)
    ensures AcceptsDocument(PLAIN, m, Strict(root), Obj(map[])) && !AcceptsDocument(PLAIN, m, root, Obj(map[]))
  {
    UndeclaredParts(root);
    FreeStrictAcceptsEmpty(m, root);
    UndeclaredRequiredIsLost(m, root, Obj(map[]));
  }

  lemma {:induction false} FreeStrictAcceptsEmpty(m: Matcher, root: Json)
    requires TranslatableInside(root) && Closes(root.fields) && Unrequired(root).fields == map["type" := Str("object")]
    ensures AcceptsDocument(PLAIN, m, Strict(root), Obj(map[]))
  {
    UnrequiredTranslates(root);
    FreeAcceptsEmpty(m, Unrequired(root));
    StrictOnlyTightens(m, Unrequired(root), Obj(map[]));
  }
}
