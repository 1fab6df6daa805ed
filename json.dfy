/** JSON-shaped values: check details, cached OpenAPI documents and Python's `None`. */
module Json {

  /** A JSON value; `Null` is also Python's `None`. Numbers are integers here. */
  datatype Json =
    | Null
    | Bool(b: bool)
    | Number(n: int)
    | Str(s: string)
    | Array(items: seq<Json>)
    | Object(fields: map<string, Json>)

  /** A mapping of structured evidence, as stored in `Issue.details`. */
  type Details = map<string, Json>

  /** Python truthiness: `None`, `False`, `0`, `""`, `[]` and `{}` are false. */
  predicate Truthy(j: Json) {
    match j
    case Null => false
    case Bool(b) => b
    case Number(n) => n != 0
    case Str(s) => s != ""
    case Array(items) => items != []
    case Object(fields) => fields != map[]
  }

  /** `list(filter(None, xs))`: the truthy elements, in order. */
  function TruthyOnly(xs: seq<Json>): (r: seq<Json>)
    ensures |r| <= |xs|
    ensures forall j :: j in r ==> Truthy(j)
    ensures forall j :: j in r <==> j in xs && Truthy(j)
  {
    if xs == [] then []
    else
      var rest := TruthyOnly(xs[..|xs| - 1]);
      assert xs == xs[..|xs| - 1] + [xs[|xs| - 1]];
      if Truthy(xs[|xs| - 1]) then rest + [xs[|xs| - 1]] else rest
  }

  lemma {:induction false} TruthyOnlyAppend(a: seq<Json>, b: seq<Json>)
    ensures TruthyOnly(a + b) == TruthyOnly(a) + TruthyOnly(b)
    decreases |b|
  {
    if b == [] {
      assert a + b == a;
    } else {
      var b' := b[..|b| - 1];
      assert (a + b)[..|a + b| - 1] == a + b';
      assert (a + b)[|a + b| - 1] == b[|b| - 1];
      TruthyOnlyAppend(a, b');
    }
  }
}
