/** Values shared by every part of the model. */
module Values {

  datatype Option<+T> = None | Some(value: T)

  /** Identifiers (UUIDs) and instants are opaque numbers; instants are ordered. */
  type Id = nat
  type Time = int

  datatype Scalar =
    | Null
    | Bool(b: bool)
    | Int(n: int)
    | Flt(r: real)
    | Str(s: string)

  /** A proposal or command value: a scalar or a flat list of scalars. */
  datatype Value = One(scalar: Scalar) | Many(items: seq<Scalar>)

  /** The value JSON storage keeps in a job result. */
  datatype Json =
    | JNull
    | JBool(b: bool)
    | JInt(n: int)
    | JStr(s: string)
    | JArr(items: seq<Json>)
    | JObj(members: map<string, Json>)

  /** Python compares True, 1 and 1.0 as equal; the canonical form makes that structural. */
  function CanonScalar(x: Scalar): Scalar {
    match x
    case Bool(b) => Int(if b then 1 else 0)
    case Flt(r) => if r.Floor as real == r then Int(r.Floor) else x
    case _ => x
  }

  function Canon(v: Value): Value {
    match v
    case One(x) => One(CanonScalar(x))
    case Many(xs) => Many(seq(|xs|, i requires 0 <= i < |xs| => CanonScalar(xs[i])))
  }

  predicate IsNumber(x: Scalar) { x.Bool? || x.Int? || x.Flt? }

  function NumberOf(x: Scalar): real
    requires IsNumber(x)
  {
    match x
    case Bool(b) => if b then 1.0 else 0.0
    case Int(n) => n as real
    case Flt(r) => r
  }

  /** Python's equality of two scalars: numbers by their value, whatever their type. */
  predicate Equal(a: Scalar, b: Scalar) {
    if IsNumber(a) && IsNumber(b) then NumberOf(a) == NumberOf(b) else a == b
  }

  predicate EqualValues(a: Value, b: Value) {
    match (a, b)
    case (One(x), One(y)) => Equal(x, y)
    case (Many(xs), Many(ys)) => |xs| == |ys| && forall i :: 0 <= i < |xs| ==> Equal(xs[i], ys[i])
    case _ => false
  }

  lemma CanonScalarsAgree(a: Scalar, b: Scalar)
    ensures CanonScalar(a) == CanonScalar(b) <==> Equal(a, b)
  {
  }

  lemma CanonAgrees(a: Value, b: Value)
    ensures Canon(a) == Canon(b) <==> EqualValues(a, b)
  {
    match (a, b)
    case (One(x), One(y)) => CanonScalarsAgree(x, y);
    case (Many(xs), Many(ys)) =>
      forall i | 0 <= i < |xs| && i < |ys| ensures CanonScalar(xs[i]) == CanonScalar(ys[i]) <==> Equal(xs[i], ys[i]) {
        CanonScalarsAgree(xs[i], ys[i]);
      }
      if Canon(a) == Canon(b) {
        assert |Canon(a).items| == |Canon(b).items|;
        assert forall i :: 0 <= i < |xs| ==> Canon(a).items[i] == CanonScalar(xs[i]) == Canon(b).items[i];
      }
    case _ =>
  }

  predicate OccursAt(text: string, excerpt: string, i: nat) {
    i + |excerpt| <= |text| && text[i..i + |excerpt|] == excerpt
  }

  predicate Contains(text: string, excerpt: string) {
    exists i | 0 <= i <= |text| :: OccursAt(text, excerpt, i)
  }

  function OrEmpty(t: Option<string>): string { if t.Some? then t.value else "" }

  predicate NoDuplicates<T(==)>(xs: seq<T>) {
    forall i, j :: 0 <= i < j < |xs| ==> xs[i] != xs[j]
  }
}
