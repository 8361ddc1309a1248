/** The slice of `serde_json::Value` the classifier relies on: a loosely typed document,
    total indexing (a missing key or position reads as `Null`) and the typed accessors
    `as_u64`, `as_i64` and `as_str`, which answer `None` on a type mismatch. */
module Json {
  import opened Wrappers
  import opened Ints

  /** A JSON document (RFC 8259). An integer literal is a `Num`; serde_json keeps every other
      number (a fraction, an exponent, or an integer outside the `i64`/`u64` ranges) as an
      `f64`, which `Float` stands for. */
  datatype Value =
    | Null
    | Bool(b: bool)
    | Num(n: int)
    | Float(x: real)
    | Str(s: string)
    | Arr(items: seq<Value>)
    | Obj(fields: map<string, Value>)

  /** One indexing step: `v["key"]` or `v[i]`. */
  datatype Step = Key(key: string) | Idx(index: nat)

  /** True when `step` finds an entry in `v`. */
  predicate Present(v: Value, step: Step) {
    match step
    case Key(k) => v.Obj? && k in v.fields
    case Idx(i) => v.Arr? && i < |v.items|
  }

  /** serde_json's `Index` on a shared reference: a step that finds nothing, whether the
      key or position is missing or `v` is the wrong kind of container, yields `Null`. */
  function Index(v: Value, step: Step): (r: Value)
    ensures !Present(v, step) ==> r == Null
    ensures step.Key? && Present(v, step) ==> r == v.fields[step.key]
    ensures step.Idx? && Present(v, step) ==> r == v.items[step.index]
  {
    match step
    case Key(k) => if v.Obj? && k in v.fields then v.fields[k] else Null
    case Idx(i) => if v.Arr? && i < |v.items| then v.items[i] else Null
  }

  /** A chain of indexing steps, `v[s0][s1]...`, read left to right. */
  function At(v: Value, path: seq<Step>): Value
    decreases |path|
  {
    if |path| == 0 then v else At(Index(v, path[0]), path[1..])
  }

  /** Indexing `Null` gives `Null` however long the chain: a missing intermediate level makes
      every deeper lookup absent rather than an error. */
  lemma {:induction false} NullAbsorbs(path: seq<Step>)
    ensures At(Null, path) == Null
    decreases |path|
  {
    if |path| > 0 {
      assert Index(Null, path[0]) == Null;
      NullAbsorbs(path[1..]);
    }
  }

  /** A chain splits at any point: looking up `p + q` is looking up `q` in what `p` found. */
  lemma {:induction false} AtAppend(v: Value, p: seq<Step>, q: seq<Step>)
    ensures At(v, p + q) == At(At(v, p), q)
    decreases |p|
  {
    if |p| == 0 {
      assert p + q == q;
    } else {
      assert (p + q)[0] == p[0];
      assert (p + q)[1..] == p[1..] + q;
      AtAppend(Index(v, p[0]), p[1..], q);
    }
  }

  /** Once a prefix of a chain finds nothing, so does the whole chain. */
  lemma MissingPrefix(v: Value, p: seq<Step>, q: seq<Step>)
    requires At(v, p) == Null
    ensures At(v, p + q) == Null
  {
    AtAppend(v, p, q);
    NullAbsorbs(q);
  }

  /** Chains of two and three steps, spelled out. */
  lemma AtTwo(v: Value, a: Step, b: Step)
    ensures At(v, [a, b]) == Index(Index(v, a), b)
  {
    assert [a, b][1..] == [b];
    assert [b][1..] == [];
    calc {
      At(v, [a, b]);
      At(Index(v, a), [b]);
      At(Index(Index(v, a), b), []);
    }
  }

  lemma AtThree(v: Value, a: Step, b: Step, c: Step)
    ensures At(v, [a, b, c]) == Index(Index(Index(v, a), b), c)
  {
    assert [a, b, c][1..] == [b, c];
    AtTwo(Index(v, a), b, c);
  }

  /** `as_u64`: a number that is a non-negative integer within `u64`, otherwise `None`. */
  function AsU64(v: Value): (r: Option<U64>)
    ensures r.Some? <==> v.Num? && 0 <= v.n < U64_LIMIT
    ensures r.Some? ==> v == Num(r.value)
  {
    if v.Num? && 0 <= v.n < U64_LIMIT then Some(v.n) else None
  }

  /** `as_i64`: a number that is an integer within `i64`, otherwise `None`. */
  function AsI64(v: Value): (r: Option<I64>)
    ensures r.Some? <==> v.Num? && I64_MIN <= v.n < I64_LIMIT
    ensures r.Some? ==> v == Num(r.value)
  {
    if v.Num? && I64_MIN <= v.n < I64_LIMIT then Some(v.n) else None
  }

  /** `as_str`: the text of a string, otherwise `None`. */
  function AsStr(v: Value): (r: Option<string>)
    ensures r.Some? <==> v.Str?
    ensures r.Some? ==> v == Str(r.value)
  {
    if v.Str? then Some(v.s) else None
  }

  /** The two integer accessors agree wherever both answer, and both answer exactly on the
      integers in `[0, 2^63)`. */
  lemma IntegerAccessorsAgree(v: Value)
    ensures AsU64(v).Some? && AsI64(v).Some? ==> AsU64(v).value == AsI64(v).value
    ensures AsU64(v).Some? && AsI64(v).Some? <==> v.Num? && 0 <= v.n < I64_LIMIT
  {
  }
}
