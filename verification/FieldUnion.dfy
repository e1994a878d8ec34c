/** Merging the field-change variants into one object schema, and the whole Google translation. */
module FieldUnion {
  import opened Json
  import opened Schema
  import opened GoogleSchema

  function VariantProperties(variant: Json): Outcome<map<string, Json>> {
    if !variant.Obj? then Fault
    else match Lookup(variant.fields, "properties")
      case None => Refused
      case Some(properties) =>
        if !properties.Obj? then Fault
        else if {"field_code", "value"} <= properties.fields.Keys then Done(properties.fields)
        else Refused
  }

  function Texts(xs: seq<Json>): (r: seq<string>)
    requires AllStrings(xs)
    ensures |r| == |xs| && forall i | 0 <= i < |xs| :: xs[i] == Str(r[i])
  {
    assert forall i | 0 <= i < |xs| :: xs[i] in xs;
    seq(|xs|, i requires 0 <= i < |xs| => xs[i].s)
  }

  function VariantCodes(code: Json): Outcome<seq<string>> {
    if !code.Obj? then Fault
    else
      var listed := Lookup(code.fields, "enum").GetOr(Arr([Lookup(code.fields, "const").GetOr(Null)]));
      if !listed.Arr? then Fault
      else if listed.items == [] || !AllStrings(listed.items) then Refused
      else Done(Texts(listed.items))
  }

  function AddCodes(codes: seq<string>, more: seq<string>): (r: seq<string>)
    ensures forall x :: x in r <==> x in codes || x in more
    decreases |more|
  {
    if more == [] then codes
    else AddCodes(if more[0] in codes then codes else codes + [more[0]], more[1..])
  }

  function AddValue(values: seq<Json>, value: Json): (r: seq<Json>)
    ensures forall x | x in values :: x in r
    ensures Represented(r, value)
  {
    if exists x | x in values :: PythonEqual(value, x) then values
    else
      assert Represented(values + [value], value) by {
        assert value in values + [value];
      }
      values + [value]
  }

  /** The union holds the value schema, or one that Python cannot tell from it. */
  ghost predicate Represented(values: seq<Json>, value: Json) {
    exists x | x in values :: x == value || PythonEqual(value, x)
  }

  /** What the loop over the variants has gathered. */
  datatype Gathered = Gathered(common: Option<set<string>>, codes: seq<string>, values: seq<Json>)

  const NOTHING := Gathered(None, [], [])

  function Gather(g: Gathered, variant: Json): Outcome<Gathered> {
    match VariantProperties(variant)
    case Refused => Refused
    case Fault => Fault
    case Done(properties) =>
      if g.common.Some? && g.common.value != properties.Keys then Refused
      else match VariantCodes(properties["field_code"])
        case Refused => Refused
        case Fault => Fault
        case Done(codes) =>
          Done(Gathered(Some(properties.Keys), AddCodes(g.codes, codes), AddValue(g.values, properties["value"])))
  }

  function GatherAll(g: Gathered, variants: seq<Json>): Outcome<Gathered>
    decreases |variants|
  {
    if variants == [] then Done(g)
    else match Gather(g, variants[0])
      case Done(next) => GatherAll(next, variants[1..])
      case Refused => Refused
      case Fault => Fault
  }

  function CodeSchema(codes: seq<string>): Json {
    Obj(map["type" := Str("string"), "enum" := Arr(StringItems(codes))])
  }

  function ValueSchema(values: seq<Json>): Json {
    Obj(map["anyOf" := Arr(values)])
  }

  function Record(properties: map<string, Json>): Json {
    Obj(map["type" := Str("object"), "properties" := Obj(properties), "required" := Names(properties.Keys)])
  }

  function MergedProperties(first: map<string, Json>, g: Gathered): map<string, Json> {
    first["field_code" := CodeSchema(g.codes)]["value" := ValueSchema(g.values)]
  }

  function MergedItem(first: map<string, Json>, g: Gathered): Json {
    Record(MergedProperties(first, g))
  }

  function StringItems(xs: seq<string>): (r: seq<Json>)
    ensures |r| == |xs| && forall i | 0 <= i < |xs| :: r[i] == Str(xs[i])
  {
    seq(|xs|, i requires 0 <= i < |xs| => Str(xs[i]))
  }

  function Merge(variants: seq<Json>): Outcome<Json> {
    match GatherAll(NOTHING, variants)
    case Refused => Refused
    case Fault => Fault
    case Done(g) =>
      if variants == [] then Refused
      else match VariantProperties(variants[0])
        case Done(first) => Done(MergedItem(first, g))
        case Refused => Refused
        case Fault => Fault
  }

  method MergeVariants(variants: seq<Json>) returns (r: Outcome<Json>)
    ensures r == Merge(variants)
  {
    var codes: seq<string>, values: seq<Json>, common: Option<set<string>> := [], [], None;
    for i := 0 to |variants|
      invariant GatherAll(NOTHING, variants) == GatherAll(Gathered(common, codes, values), variants[i..])
      invariant i > 0 ==> VariantProperties(variants[0]).Done?
    {
      assert variants[i..][0] == variants[i] && variants[i..][1..] == variants[i + 1..];
      var properties := VariantProperties(variants[i]);
      if !properties.Done? {
        return if properties.Fault? then Fault else Refused;
      }
      if common.None? {
        common := Some(properties.value.Keys);
      } else if common.value != properties.value.Keys {
        return Refused;
      }
      var found := VariantCodes(properties.value["field_code"]);
      if !found.Done? {
        return if found.Fault? then Fault else Refused;
      }
      codes := AddCodes(codes, found.value);
      values := AddValue(values, properties.value["value"]);
    }
    if |variants| == 0 {
      return Refused;
    }
    return Done(MergedItem(VariantProperties(variants[0]).value, Gathered(common, codes, values)));
  }

  ghost predicate CodeOf(variants: seq<Json>, i: nat, code: string) {
    i < |variants| && VariantProperties(variants[i]).Done? &&
    var found := VariantCodes(VariantProperties(variants[i]).value["field_code"]);
    found.Done? && code in found.value
  }

  function ValueOf(variant: Json): Json
    requires VariantProperties(variant).Done?
  {
    VariantProperties(variant).value["value"]
  }

  lemma {:induction false} GatheredKeys(g: Gathered, variants: seq<Json>)
    requires GatherAll(g, variants).Done?
    ensures forall i | 0 <= i < |variants| ::
      VariantProperties(variants[i]).Done? &&
      VariantProperties(variants[i]).value.Keys == g.common.GetOr(VariantProperties(variants[0]).value.Keys)
    decreases |variants|
  {
    if variants != [] {
      GatheredKeys(Gather(g, variants[0]).value, variants[1..]);
      forall i | 0 < i < |variants| ensures variants[i] == variants[1..][i - 1] {}
    }
  }

  lemma {:induction false} GatheredCodes(g: Gathered, variants: seq<Json>, code: string)
    requires GatherAll(g, variants).Done?
    ensures code in GatherAll(g, variants).value.codes <==>
            code in g.codes || exists i: nat :: CodeOf(variants, i, code)
    decreases |variants|
  {
    if variants != [] {
      var next := Gather(g, variants[0]).value;
      var rest := variants[1..];
      GatheredCodes(next, rest, code);
      assert code in next.codes <==> code in g.codes || CodeOf(variants, 0, code);
      forall i: nat ensures CodeOf(rest, i, code) <==> CodeOf(variants, i + 1, code) {
        if i + 1 < |variants| { assert rest[i] == variants[i + 1]; }
      }
      if i: nat :| CodeOf(variants, i, code) {
        assert i == 0 || CodeOf(rest, i - 1, code);
      }
    }
  }

  lemma {:induction false} GatheredValues(g: Gathered, variants: seq<Json>)
    requires GatherAll(g, variants).Done?
    ensures var values := GatherAll(g, variants).value.values;
      && (forall x | x in g.values :: x in values)
      && (forall i | 0 <= i < |variants| :: VariantProperties(variants[i]).Done? && Represented(values, ValueOf(variants[i])))
      && (forall x | x in values :: x in g.values || FromVariant(variants, x))
    decreases |variants|
  {
    if variants != [] {
      var next := Gather(g, variants[0]).value;
      var rest := variants[1..];
      GatheredValues(next, rest);
      assert Represented(next.values, ValueOf(variants[0]));
      forall i | 0 < i < |variants| ensures variants[i] == rest[i - 1] {}
      assert forall x | FromVariant(rest, x) :: FromVariant(variants, x);
    }
  }

  ghost predicate FromVariant(variants: seq<Json>, x: Json) {
    exists i | 0 <= i < |variants| :: VariantProperties(variants[i]).Done? && x == ValueOf(variants[i])
  }

  // What merging does to the accepted set.

  const PAIR: set<string> := {"field_code", "value"}

  ghost predicate MergedAccepts(c: Context, first: map<string, Json>, g: Gathered, v: Json) {
    v.Obj? && PAIR <= first.Keys <= v.fields.Keys &&
    (v.fields["field_code"].Str? && v.fields["field_code"].s in g.codes) &&
    (exists x | x in g.values :: Accepts(c, x, v.fields["value"])) &&
    (forall k | k in first && k !in PAIR :: Accepts(c, first[k], v.fields[k]))
  }

  lemma {:induction false} CodeSchemaAccepts(c: Context, codes: seq<string>, v: Json)
    requires c.reading == PLAIN
    ensures Accepts(c, CodeSchema(codes), v) <==> v.Str? && v.s in codes
  {
    var s := CodeSchema(codes);
    assert "type" in s.fields && "enum" in s.fields && s.fields.Keys == {"type", "enum"};
    assert Holds(c, s, "type", v) <==> v.Str?;
    assert Holds(c, s, "enum", v) <==> v in StringItems(codes);
    if v.Str? && v.s in codes {
      var i :| 0 <= i < |codes| && codes[i] == v.s;
      assert StringItems(codes)[i] == v;
    }
  }

  lemma {:induction false} ValueSchemaAccepts(c: Context, values: seq<Json>, v: Json)
    requires c.reading == PLAIN
    ensures Accepts(c, ValueSchema(values), v) <==> exists x | x in values :: Accepts(c, x, v)
  {
    var s := ValueSchema(values);
    assert "anyOf" in s.fields && s.fields.Keys == {"anyOf"};
    UnionHolds(c, s, values, v);
  }

  ghost predicate RecordOf(c: Context, properties: map<string, Json>, v: Json) {
    v.Obj? && properties.Keys <= v.fields.Keys &&
    forall k | k in properties :: Accepts(c, properties[k], v.fields[k])
  }

  lemma {:induction false} RecordKeywords(c: Context, s: Json, properties: map<string, Json>, v: Json)
    requires s == Record(properties)
    ensures Holds(c, s, "type", v) && Holds(c, s, "properties", v) && Holds(c, s, "required", v) <==>
            RecordOf(c, properties, v)
  {
    TypeHolds(c, s, "object", v);
    PropertiesHold(c, s, properties, v);
    RequiredNames(c, s, properties.Keys, v);
  }

  lemma {:induction false} RecordAccepts(c: Context, properties: map<string, Json>, v: Json)
    requires c.reading == PLAIN
    ensures Accepts(c, Record(properties), v) <==> RecordOf(c, properties, v)
  {
    var s := Record(properties);
    assert s.fields.Keys == {"type", "properties", "required"};
    RecordKeywords(c, s, properties, v);
  }

  lemma {:induction false} MergedRecord(c: Context, first: map<string, Json>, g: Gathered, v: Json)
    requires PAIR <= first.Keys
    ensures RecordOf(c, MergedProperties(first, g), v) <==>
      v.Obj? && first.Keys <= v.fields.Keys &&
      Accepts(c, CodeSchema(g.codes), v.fields["field_code"]) &&
      Accepts(c, ValueSchema(g.values), v.fields["value"]) &&
      forall k | k in first && k !in PAIR :: Accepts(c, first[k], v.fields[k])
  {
  }

  lemma {:induction false} MergedItemAccepts(c: Context, first: map<string, Json>, g: Gathered, v: Json)
    requires c.reading == PLAIN && PAIR <= first.Keys
    ensures Accepts(c, MergedItem(first, g), v) <==> MergedAccepts(c, first, g, v)
  {
    RecordAccepts(c, MergedProperties(first, g), v);
    MergedRecord(c, first, g, v);
    if v.Obj? && first.Keys <= v.fields.Keys {
      CodeSchemaAccepts(c, g.codes, v.fields["field_code"]);
      ValueSchemaAccepts(c, g.values, v.fields["value"]);
    }
  }

  predicate ObjectVariant(variant: Json) {
    VariantProperties(variant).Done? &&
    Lookup(variant.fields, "type") == Some(Str("object")) &&
    (var required := Lookup(variant.fields, "required").GetOr(Null);
     required.Arr? && forall name | name in VariantProperties(variant).value :: Str(name) in required.items)
  }

  /** The variants of a tagged union: closed over the same shared properties, told apart by value. */
  ghost predicate Agreeing(variants: seq<Json>) {
    (forall i | 0 <= i < |variants| :: ObjectVariant(variants[i])) &&
    (forall i, k | 0 <= i < |variants| && k in VariantProperties(variants[i]).value && k !in PAIR ::
       Lookup(VariantProperties(variants[0]).value, k) == Some(VariantProperties(variants[i]).value[k])) &&
    Distinguishable(variants)
  }

  /** No two value schemas differ only by a truth value standing for 0 or 1. */
  ghost predicate Distinguishable(variants: seq<Json>)
    requires forall i | 0 <= i < |variants| :: VariantProperties(variants[i]).Done?
  {
    forall i, j | 0 <= i < |variants| && 0 <= j < |variants| ::
      PythonEqual(ValueOf(variants[i]), ValueOf(variants[j])) ==> ValueOf(variants[i]) == ValueOf(variants[j])
  }

  lemma {:induction false} MergedParts(variants: seq<Json>)
    requires Merge(variants).Done?
    ensures variants != [] && VariantProperties(variants[0]).Done? && GatherAll(NOTHING, variants).Done?
    ensures Merge(variants).value == MergedItem(VariantProperties(variants[0]).value, GatherAll(NOTHING, variants).value)
    ensures PAIR <= VariantProperties(variants[0]).value.Keys
  {
  }

  lemma {:induction false} AllValuesKept(variants: seq<Json>, i: nat)
    requires Merge(variants).Done? && i < |variants|
    requires (forall j | 0 <= j < |variants| :: VariantProperties(variants[j]).Done?) && Distinguishable(variants)
    ensures ValueOf(variants[i]) in GatherAll(NOTHING, variants).value.values
  {
    GatheredValues(NOTHING, variants);
    var values := GatherAll(NOTHING, variants).value.values;
    assert Represented(values, ValueOf(variants[i]));
    var x :| x in values && (x == ValueOf(variants[i]) || PythonEqual(ValueOf(variants[i]), x));
    assert FromVariant(variants, x);
  }

  /** Any variant's code with any variant's value, and the shared properties. */
  ghost predicate Product(c: Context, variants: seq<Json>, v: Json)
    requires variants != [] && forall i | 0 <= i < |variants| :: VariantProperties(variants[i]).Done?
  {
    var first := VariantProperties(variants[0]).value;
    v.Obj? && PAIR <= first.Keys <= v.fields.Keys &&
    (v.fields["field_code"].Str? && exists i: nat :: CodeOf(variants, i, v.fields["field_code"].s)) &&
    (exists j | 0 <= j < |variants| :: Accepts(c, ValueOf(variants[j]), v.fields["value"])) &&
    (forall k | k in first && k !in PAIR :: Accepts(c, first[k], v.fields[k]))
  }

  lemma {:induction false} MergeIsProduct(c: Context, variants: seq<Json>, v: Json)
    requires c.reading == PLAIN && Merge(variants).Done? && Agreeing(variants)
    ensures variants != [] && (Accepts(c, Merge(variants).value, v) <==> Product(c, variants, v))
  {
    MergedParts(variants);
    var first, g := VariantProperties(variants[0]).value, GatherAll(NOTHING, variants).value;
    MergedItemAccepts(c, first, g, v);
    if v.Obj? && first.Keys <= v.fields.Keys {
      if v.fields["field_code"].Str? {
        GatheredCodes(NOTHING, variants, v.fields["field_code"].s);
      }
      GatheredValues(NOTHING, variants);
      forall j | 0 <= j < |variants| { AllValuesKept(variants, j); }
    }
  }

  lemma {:induction false} CodeAccepted(c: Context, code: Json, v: Json)
    requires c.reading == PLAIN && VariantCodes(code).Done? && Accepts(c, code, v)
    ensures v.Str? && v.s in VariantCodes(code).value
  {
    if "enum" in code.fields {
      assert Holds(c, code, "enum", v);
      var i :| 0 <= i < |code.fields["enum"].items| && code.fields["enum"].items[i] == v;
      assert VariantCodes(code).value[i] == v.s;
    } else {
      assert [Lookup(code.fields, "const").GetOr(Null)][0].Str?;
      assert Holds(c, code, "const", v);
      assert VariantCodes(code).value[0] == v.s;
    }
  }

  lemma {:induction false} VariantAcceptsRecord(c: Context, variant: Json, v: Json)
    requires c.reading == PLAIN && ObjectVariant(variant) && Accepts(c, variant, v)
    ensures RecordOf(c, VariantProperties(variant).value, v)
  {
  }

  lemma {:induction false} SharedAccepted(c: Context, variants: seq<Json>, i: nat, v: Json, k: string)
    requires variants != [] && GatherAll(NOTHING, variants).Done? && Agreeing(variants)
    requires i < |variants| && RecordOf(c, VariantProperties(variants[i]).value, v)
    requires k in VariantProperties(variants[0]).value && k !in PAIR
    ensures k in v.fields && Accepts(c, VariantProperties(variants[0]).value[k], v.fields[k])
  {
    GatheredKeys(NOTHING, variants);
    var first, properties := VariantProperties(variants[0]).value, VariantProperties(variants[i]).value;
    assert k in properties && Lookup(first, k) == Some(properties[k]);
  }

  lemma {:induction false} SameNames(variants: seq<Json>, i: nat)
    requires variants != [] && GatherAll(NOTHING, variants).Done? && i < |variants|
    ensures VariantProperties(variants[0]).Done? && VariantProperties(variants[i]).Done?
    ensures VariantProperties(variants[i]).value.Keys == VariantProperties(variants[0]).value.Keys
  {
    GatheredKeys(NOTHING, variants);
  }

  lemma {:induction false} VariantIsProduct(c: Context, variants: seq<Json>, i: nat, v: Json)
    requires variants != [] && forall j | 0 <= j < |variants| :: VariantProperties(variants[j]).Done?
    requires i < |variants| && RecordOf(c, VariantProperties(variants[i]).value, v)
    requires VariantProperties(variants[i]).value.Keys == VariantProperties(variants[0]).value.Keys
    requires forall k | k in VariantProperties(variants[0]).value && k !in PAIR ::
      Accepts(c, VariantProperties(variants[0]).value[k], v.fields[k])
    requires v.fields["field_code"].Str? && CodeOf(variants, i, v.fields["field_code"].s)
    ensures Product(c, variants, v)
  {
  }

  /** Every instance of an agreeing variant is an instance of the merged item. */
  lemma {:induction false} MergeOnlyRelaxes(c: Context, variants: seq<Json>, i: nat, v: Json)
    requires c.reading == PLAIN && Merge(variants).Done? && Agreeing(variants)
    requires i < |variants| && Accepts(c, variants[i], v)
    ensures Accepts(c, Merge(variants).value, v)
  {
    var properties := VariantProperties(variants[i]).value;
    VariantAcceptsRecord(c, variants[i], v);
    GatheredFormed(NOTHING, variants, i);
    CodeAccepted(c, properties["field_code"], v.fields["field_code"]);
    SameNames(variants, i);
    forall k | k in VariantProperties(variants[0]).value && k !in PAIR
      ensures Accepts(c, VariantProperties(variants[0]).value[k], v.fields[k])
    {
      SharedAccepted(c, variants, i, v, k);
    }
    VariantIsProduct(c, variants, i, v);
    MergeIsProduct(c, variants, v);
  }

  lemma {:induction false} GatheredFormed(g: Gathered, variants: seq<Json>, i: nat)
    requires GatherAll(g, variants).Done? && i < |variants|
    ensures VariantProperties(variants[i]).Done?
    ensures VariantCodes(VariantProperties(variants[i]).value["field_code"]).Done?
    decreases |variants|
  {
    if i > 0 {
      assert variants[i] == variants[1..][i - 1];
      GatheredFormed(Gather(g, variants[0]).value, variants[1..], i - 1);
    }
  }

  // The whole translation.

  function FieldChanges(schema: Json): Outcome<Json> {
    if !schema.Obj? then Done(Null)
    else
      var properties := Lookup(schema.fields, "properties").GetOr(Obj(map[]));
      if properties.Obj? then Done(Lookup(properties.fields, "field_changes").GetOr(Null)) else Fault
  }

  function ItemsOf(fields: Json): Json
    requires fields.Obj?
  {
    Lookup(fields.fields, "items").GetOr(Obj(map[]))
  }

  /** `'anyOf' in items`, as Python asks it of an object or an array. */
  function HasUnion(fields: Json): Outcome<bool> {
    if !fields.Obj? then Done(false)
    else match ItemsOf(fields)
      case Obj(keys) => Done("anyOf" in keys)
      case Arr(xs) => Done(Str("anyOf") in xs)
      case _ => Fault
  }

  function VariantsOf(schema: Json): Option<seq<Json>> {
    match FieldChanges(schema)
    case Done(Obj(fields)) =>
      var items := Lookup(fields, "items").GetOr(Null);
      var union := if items.Obj? then Lookup(items.fields, "anyOf").GetOr(Null) else Null;
      if union.Arr? then Some(union.items) else None
    case _ => None
  }

  function WithItems(schema: Json, item: Json): Json
    requires VariantsOf(schema).Some?
  {
    var properties := schema.fields["properties"].fields;
    var fields := properties["field_changes"].fields["items" := item];
    Obj(schema.fields["properties" := Obj(properties["field_changes" := Obj(fields)])])
  }

  function InlineAndMerge(schema: Json): Outcome<Json> {
    match Inline(DefinitionsOf(schema), schema, {})
    case None => Refused
    case Some(inlined) =>
      match VariantsOf(inlined)
      case None => Fault
      case Some(variants) =>
        match Merge(variants)
        case Done(item) => Done(WithItems(inlined, item))
        case Refused => Refused
        case Fault => Fault
  }

  function GoogleProviderSchema(value: Json): Outcome<Json> {
    var supported := Supported(value);
    match FieldChanges(supported)
    case Done(fields) =>
      (match HasUnion(fields)
       case Done(union) => if union then InlineAndMerge(supported) else Done(supported)
       case Refused => Refused
       case Fault => Fault)
    case Refused => Refused
    case Fault => Fault
  }

  predicate Merges(value: Json) {
    var fields := FieldChanges(Supported(value));
    fields.Done? && HasUnion(fields.value) == Done(true)
  }

  ghost predicate AgreeingDocument(value: Json) {
    var supported := Supported(value);
    var inlined := Inline(DefinitionsOf(supported), supported, {});
    inlined.Some? && VariantsOf(inlined.value).Some? ==> Agreeing(VariantsOf(inlined.value).value)
  }

  lemma {:induction false} ReplaceArgument(c: Context, s: Json, k: string, brg: Json)
    requires c.reading == PLAIN && s.Obj? && k in s.fields
    requires ArgumentWithin(c, k, s.fields[k], c, brg)
    requires Declared(s.fields[k := brg]).Keys == Declared(s.fields).Keys
    ensures Within(c, s, c, Obj(s.fields[k := brg]))
  {
    var t := Obj(s.fields[k := brg]);
    forall v | Accepts(c, s, v) ensures Accepts(c, t, v) {
      forall key | key in t.fields ensures Holds(c, t, key, v) {
        if key != k {
          UnchangedArgument(c, key, s.fields[key], c);
        }
        HoldsWithin(c, s, c, t, key, v);
      }
    }
  }

  lemma {:induction false} UnionWithinMerged(c: Context, items: Json)
    requires c.reading == PLAIN && items.Obj? && "anyOf" in items.fields && items.fields["anyOf"].Arr?
    requires Merge(items.fields["anyOf"].items).Done? && Agreeing(items.fields["anyOf"].items)
    ensures Within(c, items, c, Merge(items.fields["anyOf"].items).value)
  {
    var variants := items.fields["anyOf"].items;
    forall v | Accepts(c, items, v) ensures Accepts(c, Merge(variants).value, v) {
      UnionHolds(c, items, variants, v);
      assert Holds(c, items, "anyOf", v);
      var x :| x in variants && Accepts(c, x, v);
      var i :| 0 <= i < |variants| && variants[i] == x;
      MergeOnlyRelaxes(c, variants, i, v);
    }
  }

  lemma {:induction false} WithItemsOnlyRelaxes(c: Context, schema: Json)
    requires c.reading == PLAIN && VariantsOf(schema).Some? && Merge(VariantsOf(schema).value).Done?
    requires Agreeing(VariantsOf(schema).value)
    ensures Within(c, schema, c, WithItems(schema, Merge(VariantsOf(schema).value).value))
  {
    var item := Merge(VariantsOf(schema).value).value;
    var properties := schema.fields["properties"].fields;
    var fields := properties["field_changes"];
    UnionWithinMerged(c, fields.fields["items"]);
    ReplaceArgument(c, fields, "items", item);
    var after := properties["field_changes" := Obj(fields.fields["items" := item])];
    assert after.Keys == properties.Keys;
    ReplaceArgument(c, schema, "properties", Obj(after));
  }

  lemma {:induction false} SupportedArgumentFormed(k: string, arg: Json)
    requires ArgumentFormed(k, arg)
    ensures ArgumentFormed(k, Supported(arg))
  {
    assert Supported(arg).Obj? == arg.Obj? && Supported(arg).Arr? == arg.Arr?;
    if k in {"properties", "$defs", "items", "additionalProperties", "anyOf", "allOf"} {
      assert arg.Bool? ==> Supported(arg) == arg;
    } else if k !in ANNOTATIONS {
      ScalarsSupported(k, arg);
    }
  }

  lemma {:induction false} SupportedNode(s: Json)
    requires WellFormed(s) && PlainNames(s)
    ensures WellFormed(Supported(s)) && PlainNames(Supported(s))
  {
    if s.Obj? {
      var t := Supported(s);
      forall k | k in t.fields ensures ArgumentFormed(k, t.fields[k]) {
        SupportedArgumentFormed(k, s.fields[k]);
      }
      if "properties" in t.fields { assert t.fields["properties"] == Supported(s.fields["properties"]); }
      if "$defs" in t.fields { assert t.fields["$defs"] == Supported(s.fields["$defs"]); }
    }
  }

  lemma {:induction false} SupportedSubschema(s: Json, k: string, y: Json) returns (x: Json)
    requires s.Obj? && WellFormed(s) && k in Supported(s).fields
    requires y in Subschemas(k, Supported(s).fields[k])
    ensures x in Subschemas(k, s.fields[k]) && y == Supported(x)
  {
    var arg, brg := s.fields[k], Supported(s).fields[k];
    assert ArgumentFormed(k, arg);
    if k in {"properties", "$defs"} {
      var name :| name in brg.fields && brg.fields[name] == y;
      x := arg.fields[name];
    } else if k in {"anyOf", "allOf"} {
      var i :| 0 <= i < |brg.items| && brg.items[i] == y;
      x := arg.items[i];
    } else {
      x := arg;
    }
  }

  lemma {:induction false} NodeInlinable(s: Json)
    requires WellFormed(s) && PlainNames(s)
    requires s.Obj? ==> forall k | k in s.fields :: forall y | y in Subschemas(k, s.fields[k]) :: Inlinable(y)
    ensures Inlinable(s)
  {
  }

  lemma {:induction false} SupportedIsInlinable(s: Json)
    requires Droppable(s)
    ensures Inlinable(Supported(s))
    decreases s
  {
    SupportedNode(s);
    var t := Supported(s);
    if s.Obj? {
      forall k, y | k in t.fields && y in Subschemas(k, t.fields[k]) ensures Inlinable(y) {
        var x := SupportedSubschema(s, k, y);
        Inside(WellFormed, s, k, x);
        Inside(PlainNames, s, k, x);
        SupportedIsInlinable(x);
      }
    }
    NodeInlinable(t);
  }

  lemma {:induction false} SupportedDocument(root: Json)
    requires root.Obj? && Droppable(root)
    ensures DefinitionsOf(Supported(root)) == SupportedDefinitions(DefinitionsOf(root))
    ensures forall name | name in DefinitionsOf(root) :: Droppable(DefinitionsOf(root)[name])
    ensures forall name | name in DefinitionsOf(Supported(root)) :: Inlinable(DefinitionsOf(Supported(root))[name])
  {
    var defs := DefinitionsOf(root);
    assert PlainNames(root) && WellFormed(root);
    InDefinitions(WellFormed, root);
    InDefinitions(PlainNames, root);
    forall name | name in defs ensures Inlinable(Supported(defs[name])) {
      SupportedIsInlinable(defs[name]);
    }
    if "$defs" in root.fields {
      assert ArgumentFormed("$defs", root.fields["$defs"]);
      assert Supported(root).fields["$defs"] == Supported(root.fields["$defs"]);
    }
  }

  lemma {:induction false} InlineAndMergeOnlyRelaxes(c: Context, schema: Json, d: Context)
    requires c.reading == PLAIN && c.defs == DefinitionsOf(schema) && InlineContexts(c, d)
    requires schema.Obj? && Inlinable(schema) && InlineAndMerge(schema).Done?
    requires Agreeing(VariantsOf(Inline(DefinitionsOf(schema), schema, {}).value).value)
    ensures Within(c, schema, d, InlineAndMerge(schema).value)
  {
    var inlined := Inline(DefinitionsOf(schema), schema, {}).value;
    InlineOnlyRelaxes(c, d, schema, {});
    WithItemsOnlyRelaxes(d, inlined);
  }

  /** Every instance the canonical schema accepts, the schema sent to Google accepts. */
  lemma {:induction false} GoogleOnlyRelaxes(m: Matcher, root: Json, v: Json)
    requires root.Obj? && Droppable(root) && GoogleProviderSchema(root).Done?
    requires Merges(root) ==> AgreeingDocument(root)
    requires AcceptsDocument(PLAIN, m, root, v)
    ensures AcceptsDocument(PLAIN, m, GoogleProviderSchema(root).value, v)
  {
    var supported := Supported(root);
    var defs := DefinitionsOf(root);
    var fuel :| Accepts(Context(PLAIN, m, defs, fuel), root, v);
    SupportedDocument(root);
    var c := Context(UNCONSTRAINED, m, defs, fuel);
    var d := Context(PLAIN, m, DefinitionsOf(supported), fuel);
    WeakerAccepts(Context(PLAIN, m, defs, fuel), UNCONSTRAINED, root);
    assert Accepts(c, root, v);
    SupportedReads(c, d, root);
    assert Accepts(d, supported, v);
    if Merges(root) {
      var result := InlineAndMerge(supported).value;
      var e := Context(PLAIN, m, DefinitionsOf(result), fuel);
      SupportedIsInlinable(root);
      InlineAndMergeOnlyRelaxes(d, supported, e);
      assert Accepts(e, result, v);
    }
  }

  lemma {:induction false} ConstAccepts(c: Context, value: Json, v: Json)
    requires c.reading == PLAIN
    ensures Accepts(c, Obj(map["const" := value]), v) <==> v == value
  {
    var s := Obj(map["const" := value]);
    assert "const" in s.fields && s.fields.Keys == {"const"};
    assert Holds(c, s, "const", v) <==> v == value;
  }
}
