/** JSON values as the code compares them, with Python's equality and truth. */
module Json {

  datatype Json =
    | Null
    | Bool(b: bool)
    | Num(n: real)
    | Str(s: string)
    | List(xs: seq<Json>)
    | Obj(m: map<string, Json>)

  /** A boolean equals the number it stands for; nothing else crosses types. */
  predicate Equal(a: Json, b: Json)
    decreases a
  {
    match (a, b)
    case (Bool(x), Num(y)) => (if x then 1.0 else 0.0) == y
    case (Num(x), Bool(y)) => x == if y then 1.0 else 0.0
    case (List(xs), List(ys)) => |xs| == |ys| && forall i :: 0 <= i < |xs| ==> Equal(xs[i], ys[i])
    case (Obj(m), Obj(n)) => m.Keys == n.Keys && forall k :: k in m ==> Equal(m[k], n[k])
    case _ => a == b
  }

  predicate Truthy(j: Json) {
    match j
    case Null => false
    case Bool(b) => b
    case Num(n) => n != 0.0
    case Str(s) => s != ""
    case List(xs) => xs != []
    case Obj(m) => m != map[]
  }

  predicate Has(j: Json, key: string) { j.Obj? && key in j.m }

  /** `j[key]`, where the key is known to be there. */
  function At(j: Json, key: string): Json
    requires Has(j, key)
  {
    j.m[key]
  }

  /** `j.get(key)`. */
  function Get(j: Json, key: string): Json
    requires j.Obj?
  {
    if key in j.m then j.m[key] else Null
  }

  lemma {:induction false} EqualReflexive(a: Json)
    ensures Equal(a, a)
  {
    match a
    case List(xs) => forall i | 0 <= i < |xs| ensures Equal(xs[i], xs[i]) { EqualReflexive(xs[i]); }
    case Obj(m) => forall k | k in m ensures Equal(m[k], m[k]) { EqualReflexive(m[k]); }
    case _ =>
  }

  /** Equality with a string is identity. */
  lemma EqualString(a: Json, s: string)
    ensures Equal(a, Str(s)) <==> a == Str(s)
    ensures Equal(Str(s), a) <==> a == Str(s)
  {
  }
}
