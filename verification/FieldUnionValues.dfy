/** Which value schemas of the variants the merged item keeps, when Python takes some of them for equal. */
module FieldUnionValues {
  import opened Json
  import opened Schema
  import opened GoogleSchema
  import opened FieldUnion

  // Python's equality of JSON values is an equivalence.

  lemma {:induction false} PythonEqualToItself(a: Json)
    ensures PythonEqual(a, a)
  {
    match a
    case Arr(xs) => forall i | 0 <= i < |xs| { PythonEqualToItself(xs[i]); }
    case Obj(fields) => forall k | k in fields { PythonEqualToItself(fields[k]); }
    case _ =>
  }

  lemma {:induction false} PythonEqualBack(a: Json, b: Json)
    requires PythonEqual(a, b)
    ensures PythonEqual(b, a)
  {
    match (a, b)
    case (Arr(xs), Arr(ys)) => forall i | 0 <= i < |xs| { PythonEqualBack(xs[i], ys[i]); }
    case (Obj(fs), Obj(gs)) => forall k | k in fs { PythonEqualBack(fs[k], gs[k]); }
    case _ =>
  }

  lemma {:induction false} PythonEqualAlong(a: Json, b: Json, c: Json)
    requires PythonEqual(a, b) && PythonEqual(b, c)
    ensures PythonEqual(a, c)
  {
    match (a, b)
    case (Arr(xs), Arr(ys)) => forall i | 0 <= i < |xs| { PythonEqualAlong(xs[i], ys[i], c.items[i]); }
    case (Obj(fs), Obj(gs)) => forall k | k in fs { PythonEqualAlong(fs[k], gs[k], c.fields[k]); }
    case _ =>
  }

  // The values that are kept.

  ghost predicate AllDone(variants: seq<Json>) {
    forall i | 0 <= i < |variants| :: VariantProperties(variants[i]).Done?
  }

  /** No earlier variant has a value schema that Python takes for this one's. */
  ghost predicate KeptValue(variants: seq<Json>, j: nat)
    requires AllDone(variants)
  {
    j < |variants| && forall i | 0 <= i < j :: !PythonEqual(ValueOf(variants[j]), ValueOf(variants[i]))
  }

  ghost predicate IsKept(variants: seq<Json>, x: Json)
    requires AllDone(variants)
  {
    exists j: nat :: KeptValue(variants, j) && x == ValueOf(variants[j])
  }

  /** Every value schema has a kept one, no later than itself, that Python takes for it. */
  lemma {:induction false} KeptFor(variants: seq<Json>, j: nat) returns (i: nat)
    requires AllDone(variants) && j < |variants|
    ensures i <= j && KeptValue(variants, i) && PythonEqual(ValueOf(variants[j]), ValueOf(variants[i]))
    decreases j
  {
    if KeptValue(variants, j) {
      i := j;
      PythonEqualToItself(ValueOf(variants[j]));
    } else {
      var k :| 0 <= k < j && PythonEqual(ValueOf(variants[j]), ValueOf(variants[k]));
      i := KeptFor(variants, k);
      PythonEqualAlong(ValueOf(variants[j]), ValueOf(variants[k]), ValueOf(variants[i]));
    }
  }

  function GatheredFrom(g: Gathered, variants: seq<Json>): seq<Json>
    requires GatherAll(g, variants).Done?
  {
    GatherAll(g, variants).value.values
  }

  lemma {:induction false} GatherLast(g: Gathered, variants: seq<Json>)
    requires variants != [] && GatherAll(g, variants).Done?
    ensures
      var n := |variants| - 1;
      GatherAll(g, variants[..n]).Done? && VariantProperties(variants[n]).Done? &&
      GatheredFrom(g, variants) == AddValue(GatheredFrom(g, variants[..n]), ValueOf(variants[n]))
    decreases |variants|
  {
    var n := |variants| - 1;
    if n > 0 {
      GatherLast(Gather(g, variants[0]).value, variants[1..]);
      assert variants[1..][..n - 1] == variants[..n][1..];
      assert variants[1..][n - 1] == variants[n] && variants[..n][0] == variants[0];
    } else {
      assert variants[1..] == [] && variants[..0] == [];
    }
  }

  lemma {:induction false} AddedValues(values: seq<Json>, value: Json, x: Json)
    ensures x in AddValue(values, value) <==> x in values || (x == value && !Taken(values, value))
  {
  }

  /** Python takes the value for one that is there. */
  ghost predicate Taken(values: seq<Json>, value: Json) {
    exists y :: y in values && PythonEqual(value, y)
  }

  /** The merged union holds exactly the kept value schemas. */
  lemma {:induction false} GatheredAreKept(variants: seq<Json>, x: Json)
    requires GatherAll(NOTHING, variants).Done? && AllDone(variants)
    ensures x in GatheredFrom(NOTHING, variants) <==> IsKept(variants, x)
    decreases |variants|, 0
  {
    if variants != [] {
      var n := |variants| - 1;
      GatherLast(NOTHING, variants);
      TakenByKept(variants[..n], ValueOf(variants[n]));
      GatheredAreKept(variants[..n], x);
      AddedValues(GatheredFrom(NOTHING, variants[..n]), ValueOf(variants[n]), x);
      MostKept(variants, x);
      LastKept(variants);
    }
  }

  lemma {:induction false} TakenByKept(variants: seq<Json>, value: Json)
    requires GatherAll(NOTHING, variants).Done? && AllDone(variants)
    ensures Taken(GatheredFrom(NOTHING, variants), value) <==> TakenForKept(variants, value)
    decreases |variants|, 1
  {
    forall y ensures y in GatheredFrom(NOTHING, variants) <==> IsKept(variants, y) {
      GatheredAreKept(variants, y);
    }
  }

  ghost predicate TakenForKept(variants: seq<Json>, value: Json)
    requires AllDone(variants)
  {
    exists y :: IsKept(variants, y) && PythonEqual(value, y)
  }

  lemma {:induction false} MostKept(variants: seq<Json>, x: Json)
    requires variants != [] && AllDone(variants)
    ensures
      var n := |variants| - 1;
      IsKept(variants, x) <==> IsKept(variants[..n], x) || (KeptValue(variants, n) && x == ValueOf(variants[n]))
  {
    var n := |variants| - 1;
    forall j: nat | j < n ensures KeptValue(variants[..n], j) <==> KeptValue(variants, j) {
      assert forall i | 0 <= i <= j :: variants[..n][i] == variants[i];
    }
    if j: nat :| KeptValue(variants, j) && x == ValueOf(variants[j]) {
      assert j < n ==> KeptValue(variants[..n], j) && variants[..n][j] == variants[j];
    }
    if j: nat :| KeptValue(variants[..n], j) && x == ValueOf(variants[..n][j]) {
      assert KeptValue(variants, j) && variants[..n][j] == variants[j];
    }
  }

  /** The last value schema is kept exactly when no kept one before it is taken for it. */
  lemma {:induction false} LastKept(variants: seq<Json>)
    requires variants != [] && AllDone(variants)
    ensures
      var n := |variants| - 1;
      KeptValue(variants, n) <==> !TakenForKept(variants[..n], ValueOf(variants[n]))
  {
    var n := |variants| - 1;
    var last := ValueOf(variants[n]);
    if !KeptValue(variants, n) {
      var k :| 0 <= k < n && PythonEqual(last, ValueOf(variants[k]));
      assert variants[..n][k] == variants[k];
      var i := KeptFor(variants[..n], k);
      PythonEqualAlong(last, ValueOf(variants[k]), ValueOf(variants[..n][i]));
      assert IsKept(variants[..n], ValueOf(variants[..n][i]));
    }
    if x :| IsKept(variants[..n], x) && PythonEqual(last, x) {
      var j: nat :| KeptValue(variants[..n], j) && x == ValueOf(variants[..n][j]);
      assert variants[..n][j] == variants[j];
    }
  }

  /** Any variant's code with a kept value, and the shared properties. */
  ghost predicate KeptProduct(c: Context, variants: seq<Json>, v: Json)
    requires variants != [] && AllDone(variants)
  {
    var first := VariantProperties(variants[0]).value;
    v.Obj? && PAIR <= first.Keys <= v.fields.Keys &&
    (v.fields["field_code"].Str? && exists i: nat :: CodeOf(variants, i, v.fields["field_code"].s)) &&
    (exists x :: IsKept(variants, x) && Accepts(c, x, v.fields["value"])) &&
    (forall k | k in first && k !in PAIR :: Accepts(c, first[k], v.fields[k]))
  }

  lemma {:induction false} MergedAllDone(variants: seq<Json>)
    requires Merge(variants).Done?
    ensures variants != [] && AllDone(variants) && GatherAll(NOTHING, variants).Done?
  {
    MergedParts(variants);
    GatheredKeys(NOTHING, variants);
  }

  /** Whatever the variants: the merged item accepts exactly the codes times the kept values times the shared properties. */
  lemma {:induction false} MergeIsKeptProduct(c: Context, variants: seq<Json>, v: Json)
    requires c.reading == PLAIN && Merge(variants).Done?
    ensures variants != [] && AllDone(variants)
    ensures Accepts(c, Merge(variants).value, v) <==> KeptProduct(c, variants, v)
  {
    MergedParts(variants);
    MergedAllDone(variants);
    var first, g := VariantProperties(variants[0]).value, GatherAll(NOTHING, variants).value;
    MergedItemAccepts(c, first, g, v);
    if v.Obj? && first.Keys <= v.fields.Keys {
      if v.fields["field_code"].Str? {
        GatheredCodes(NOTHING, variants, v.fields["field_code"].s);
      }
      forall x { GatheredAreKept(variants, x); }
    }
  }

  // When every value survives.

  /** Every value that some variant's value schema accepts, some kept value schema accepts. */
  ghost predicate ValuesSurvive(c: Context, variants: seq<Json>)
    requires AllDone(variants)
  {
    forall i, y | 0 <= i < |variants| && Accepts(c, ValueOf(variants[i]), y) ::
      exists x :: IsKept(variants, x) && Accepts(c, x, y)
  }

  /** Each value schema is a constant. */
  ghost predicate ConstValues(variants: seq<Json>)
    requires AllDone(variants)
  {
    forall i | 0 <= i < |variants| :: exists k :: ValueOf(variants[i]) == Constant(k)
  }

  function Constant(k: Json): Json {
    Obj(map["const" := k])
  }

  lemma {:induction false} ConstantAccepts(c: Context, k: Json, v: Json)
    requires c.reading == PLAIN
    ensures Accepts(c, Constant(k), v) <==> v == k
  {
    ConstAccepts(c, k, v);
  }

  lemma {:induction false} SurvivorIsKept(c: Context, variants: seq<Json>, i: nat)
    requires c.reading == PLAIN && AllDone(variants) && ConstValues(variants) && ValuesSurvive(c, variants) && i < |variants|
    ensures IsKept(variants, ValueOf(variants[i]))
  {
    var k :| ValueOf(variants[i]) == Constant(k);
    ConstantAccepts(c, k, k);
    var x :| IsKept(variants, x) && Accepts(c, x, k);
    var j: nat :| KeptValue(variants, j) && x == ValueOf(variants[j]);
    var l :| ValueOf(variants[j]) == Constant(l);
    ConstantAccepts(c, l, k);
  }

  /** Two kept value schemas that Python takes for one another are the same. */
  lemma {:induction false} KeptOnce(variants: seq<Json>, x: Json, y: Json)
    requires AllDone(variants) && IsKept(variants, x) && IsKept(variants, y) && PythonEqual(x, y)
    ensures x == y
  {
    var i: nat :| KeptValue(variants, i) && x == ValueOf(variants[i]);
    var j: nat :| KeptValue(variants, j) && y == ValueOf(variants[j]);
    PythonEqualBack(x, y);
  }

  /** Distinguishable value schemas all survive; constants survive only then. */
  lemma {:induction false} SurviveExactlyWhenDistinguishable(c: Context, variants: seq<Json>)
    requires c.reading == PLAIN && AllDone(variants)
    ensures Distinguishable(variants) ==> ValuesSurvive(c, variants)
    ensures ConstValues(variants) ==> (ValuesSurvive(c, variants) <==> Distinguishable(variants))
  {
    if Distinguishable(variants) {
      forall i | 0 <= i < |variants| ensures IsKept(variants, ValueOf(variants[i])) {
        var j := KeptFor(variants, i);
        assert ValueOf(variants[i]) == ValueOf(variants[j]);
      }
    }
    if ConstValues(variants) && ValuesSurvive(c, variants) {
      forall i, j | 0 <= i < |variants| && 0 <= j < |variants| && PythonEqual(ValueOf(variants[i]), ValueOf(variants[j]))
        ensures ValueOf(variants[i]) == ValueOf(variants[j])
      {
        SurvivorIsKept(c, variants, i);
        SurvivorIsKept(c, variants, j);
        KeptOnce(variants, ValueOf(variants[i]), ValueOf(variants[j]));
      }
    }
  }

  // An instance that is lost.

  function Change(value: Json): Json {
    Obj(map["field_code" := Str("x"), "value" := value])
  }

  function ChangeProperties(value: Json): map<string, Json> {
    map["field_code" := Constant(Str("x")), "value" := Constant(value)]
  }

  /** The variant that allows the code `x` with one value. */
  function ValueVariant(value: Json): Json {
    Record(ChangeProperties(value))
  }

  lemma {:induction false} RecordProperties(properties: map<string, Json>)
    requires PAIR <= properties.Keys
    ensures VariantProperties(Record(properties)) == Done(properties)
  {
  }

  lemma {:induction false} ConstantCode(code: string)
    ensures VariantCodes(Constant(Str(code))) == Done([code])
  {
    var listed := Arr([Str(code)]);
    assert listed.items[0] in listed.items;
    assert Texts(listed.items) == [code];
  }

  lemma {:induction false} VariantParts(value: Json)
    ensures VariantProperties(ValueVariant(value)) == Done(ChangeProperties(value))
    ensures ValueOf(ValueVariant(value)) == Constant(value)
    ensures ChangeProperties(value).Keys == PAIR && VariantCodes(ChangeProperties(value)["field_code"]).Done?
  {
    assert ChangeProperties(value).Keys == PAIR;
    RecordProperties(ChangeProperties(value));
    ConstantCode("x");
  }

  lemma {:induction false} VariantAcceptsChange(c: Context, value: Json)
    requires c.reading == PLAIN
    ensures Accepts(c, ValueVariant(value), Change(value))
  {
    RecordAccepts(c, ChangeProperties(value), Change(value));
    PropertiesAcceptChange(c, value);
  }

  lemma {:induction false} PropertiesAcceptChange(c: Context, value: Json)
    requires c.reading == PLAIN
    ensures RecordOf(c, ChangeProperties(value), Change(value))
  {
    ConstantAccepts(c, Str("x"), Str("x"));
    ConstantAccepts(c, value, value);
    assert ChangeProperties(value).Keys == Change(value).fields.Keys == PAIR;
  }

  ghost predicate HasCodes(variant: Json) {
    VariantProperties(variant).Done? && VariantCodes(VariantProperties(variant).value["field_code"]).Done?
  }

  /** Two variants over the same properties merge. */
  lemma {:induction false} TwoMerge(one: Json, two: Json)
    requires HasCodes(one) && HasCodes(two)
    requires VariantProperties(one).value.Keys == VariantProperties(two).value.Keys
    ensures Merge([one, two]).Done?
  {
    var variants := [one, two];
    assert variants[1..] == [two] && [two][1..] == [];
    assert Gather(NOTHING, one).Done?;
    assert GatherAll(Gather(NOTHING, one).value, [two]).Done?;
  }

  /** If Python takes the second value schema for the first, the first alone is kept. */
  lemma {:induction false} OnlyFirstKept(one: Json, two: Json, x: Json)
    requires AllDone([one, two]) && PythonEqual(ValueOf([one, two][1]), ValueOf([one, two][0])) && IsKept([one, two], x)
    ensures x == ValueOf([one, two][0])
  {
    var j: nat :| KeptValue([one, two], j) && x == ValueOf([one, two][j]);
    assert j == 0;
  }

  /** Python takes True for 1: the second of two variants accepts an instance that the merged item refuses. */
  lemma {:induction false} TruthValueIsLost(c: Context)
    requires c.reading == PLAIN
    ensures
      var one, two := ValueVariant(Num(1.0)), ValueVariant(Bool(true));
      Merge([one, two]).Done? && Accepts(c, two, Change(Bool(true))) &&
      !Accepts(c, Merge([one, two]).value, Change(Bool(true)))
  {
    var one, two := ValueVariant(Num(1.0)), ValueVariant(Bool(true));
    VariantParts(Num(1.0));
    VariantParts(Bool(true));
    TwoMerge(one, two);
    VariantAcceptsChange(c, Bool(true));
    SecondIsLost(c, one, two, Change(Bool(true)));
  }

  lemma {:induction false} SecondIsLost(c: Context, one: Json, two: Json, v: Json)
    requires c.reading == PLAIN && Merge([one, two]).Done? && HasCodes(one) && HasCodes(two)
    requires ValueOf(one) == Constant(Num(1.0)) && ValueOf(two) == Constant(Bool(true))
    requires v.Obj? && Lookup(v.fields, "value") == Some(Bool(true))
    ensures !Accepts(c, Merge([one, two]).value, v)
  {
    MergeIsKeptProduct(c, [one, two], v);
    forall x | IsKept([one, two], x) ensures !Accepts(c, x, v.fields["value"]) {
      KeptRefusesTrue(c, one, two, x);
    }
  }

  lemma {:induction false} KeptRefusesTrue(c: Context, one: Json, two: Json, x: Json)
    requires c.reading == PLAIN && AllDone([one, two]) && IsKept([one, two], x)
    requires ValueOf([one, two][0]) == Constant(Num(1.0)) && ValueOf([one, two][1]) == Constant(Bool(true))
    ensures !Accepts(c, x, Bool(true))
  {
    TrueIsOne();
    OnlyFirstKept(one, two, x);
    ConstantAccepts(c, Num(1.0), Bool(true));
  }

  lemma {:induction false} TrueIsOne()
    ensures PythonEqual(Constant(Bool(true)), Constant(Num(1.0)))
  {
  }
}
