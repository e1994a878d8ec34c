/** JSON values as the provider schema translators see them. */
module Json {

  datatype Option<+T> = None | Some(value: T) {
    function GetOr(default: T): T {
      match this
      case Some(v) => v
      case None => default
    }
  }

  /** An object is unordered: neither Python's dict equality nor JSON Schema looks at key order. */
  datatype Json =
    | Null
    | Bool(b: bool)
    | Num(n: real)
    | Str(s: string)
    | Arr(items: seq<Json>)
    | Obj(fields: map<string, Json>)

  predicate Scalar(v: Json) {
    v.Null? || v.Bool? || v.Num? || v.Str?
  }

  predicate AllStrings(xs: seq<Json>) {
    forall x | x in xs :: x.Str?
  }

  /** Python's `==` on decoded JSON: as JSON equality, except that True == 1 and False == 0. */
  predicate PythonEqual(a: Json, b: Json) {
    match (a, b)
    case (Bool(x), Num(y)) => y == if x then 1.0 else 0.0
    case (Num(x), Bool(y)) => x == if y then 1.0 else 0.0
    case (Arr(xs), Arr(ys)) =>
      |xs| == |ys| && forall i | 0 <= i < |xs| :: PythonEqual(xs[i], ys[i])
    case (Obj(fs), Obj(gs)) =>
      fs.Keys == gs.Keys && forall k | k in fs :: PythonEqual(fs[k], gs[k])
    case _ => a == b
  }

  // A fixed order for the names of an object, so that `list(properties)` is a value.

  predicate Below(a: string, b: string) {
    a == [] || (b != [] && (a[0] < b[0] || (a[0] == b[0] && Below(a[1..], b[1..]))))
  }

  lemma {:induction false} BelowTotal(a: string, b: string)
    ensures Below(a, b) || Below(b, a)
  {
    if a != [] && b != [] && a[0] == b[0] {
      BelowTotal(a[1..], b[1..]);
    }
  }

  lemma {:induction false} BelowAntisymmetric(a: string, b: string)
    requires Below(a, b) && Below(b, a)
    ensures a == b
  {
    if a != [] && b != [] {
      BelowAntisymmetric(a[1..], b[1..]);
      assert a == [a[0]] + a[1..] && b == [b[0]] + b[1..];
    }
  }

  lemma {:induction false} BelowTransitive(a: string, b: string, c: string)
    requires Below(a, b) && Below(b, c)
    ensures Below(a, c)
  {
    if a != [] && a[0] == b[0] == c[0] {
      BelowTransitive(a[1..], b[1..], c[1..]);
    }
  }

  ghost predicate Least(least: string, names: set<string>) {
    least in names && forall x | x in names :: Below(least, x)
  }

  lemma {:induction false} LeastExists(names: set<string>) returns (least: string)
    requires names != {}
    ensures Least(least, names)
  {
    var x :| x in names;
    BelowTotal(x, x);
    if names == {x} {
      least := x;
    } else {
      var y := LeastExists(names - {x});
      BelowTotal(x, y);
      least := if Below(x, y) then x else y;
      forall z | z in names ensures Below(least, z) {
        if z != x && least == x { BelowTransitive(x, y, z); }
      }
    }
  }

  function First(names: set<string>): (least: string)
    requires names != {}
    ensures least in names
  {
    assert exists x :: x in names && forall y | y in names :: Below(x, y) by {
      var x := LeastExists(names);
    }
    assert forall a, b | a in names && b in names && Below(a, b) && Below(b, a) :: a == b by {
      forall a, b | a in names && b in names && Below(a, b) && Below(b, a) ensures a == b {
        BelowAntisymmetric(a, b);
      }
    }
    var x :| x in names && forall y | y in names :: Below(x, y);
    x
  }

  function Sorted(names: set<string>): (r: seq<string>)
    ensures forall x :: x in r <==> x in names
    ensures |r| == |names|
  {
    if names == {} then [] else
      var least := First(names);
      [least] + Sorted(names - {least})
  }

  function Names(names: set<string>): (r: Json)
    ensures r.Arr? && AllStrings(r.items) && |r.items| == |names|
    ensures forall x :: Str(x) in r.items <==> x in names
  {
    var sorted := Sorted(names);
    var items := seq(|sorted|, i requires 0 <= i < |sorted| => Str(sorted[i]));
    assert forall i | 0 <= i < |sorted| :: items[i] == Str(sorted[i]);
    assert forall x :: x in sorted ==> Str(x) in items by {
      forall x | x in sorted ensures Str(x) in items {
        var i :| 0 <= i < |sorted| && sorted[i] == x;
        assert items[i] == Str(x);
      }
    }
    Arr(items)
  }
}
