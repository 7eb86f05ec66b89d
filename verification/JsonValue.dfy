/** JSON values and the comparison that decides whether a transform changed anything. */
module JsonValue {
  datatype Json =
    | Null
    | Bool(b: bool)
    | Int(n: int)
    | Float(r: real)
    | Text(s: string)
    | List(items: seq<Json>)
    | Object(entries: map<string, Json>)

  /** `_same_json`: same type, and the same value all the way down. */
  predicate SameJson(left: Json, right: Json) {
    match (left, right)
    case (Object(l), Object(r)) => l.Keys == r.Keys && forall key <- l :: SameJson(l[key], r[key])
    case (List(l), List(r)) => |l| == |r| && forall i | 0 <= i < |l| :: SameJson(l[i], r[i])
    case (Null, Null) => true
    case (Bool(l), Bool(r)) => l == r
    case (Int(l), Int(r)) => l == r
    case (Float(l), Float(r)) => l == r
    case (Text(l), Text(r)) => l == r
    case _ => false
  }

  /** The number Python compares a value as, if it is one. */
  function Number(v: Json): (bool, real) {
    match v
    case Bool(b) => (true, if b then 1.0 else 0.0)
    case Int(n) => (true, n as real)
    case Float(r) => (true, r)
    case _ => (false, 0.0)
  }

  /** Python's own `==`, which compares booleans, integers and floats as numbers. */
  predicate PythonEqual(left: Json, right: Json) {
    match (left, right)
    case (Object(l), Object(r)) => l.Keys == r.Keys && forall key <- l :: PythonEqual(l[key], r[key])
    case (List(l), List(r)) => |l| == |r| && forall i | 0 <= i < |l| :: PythonEqual(l[i], r[i])
    case (Null, Null) => true
    case (Text(l), Text(r)) => l == r
    case _ => Number(left).0 && Number(right).0 && Number(left).1 == Number(right).1
  }

  /** `_same_json` recognises exactly the unchanged value. */
  lemma {:induction false} SameJsonIsIdentity(left: Json, right: Json)
    ensures SameJson(left, right) <==> left == right
  {
    match (left, right)
    case (Object(l), Object(r)) =>
      forall key | key in l && key in r ensures SameJson(l[key], r[key]) <==> l[key] == r[key] {
        SameJsonIsIdentity(l[key], r[key]);
      }
    case (List(l), List(r)) =>
      forall i | 0 <= i < |l| && i < |r| ensures SameJson(l[i], r[i]) <==> l[i] == r[i] {
        SameJsonIsIdentity(l[i], r[i]);
      }
    case _ =>
  }

  /** The two values have the same type at every level. */
  predicate SameTypes(left: Json, right: Json) {
    match (left, right)
    case (Object(l), Object(r)) => forall key <- l :: key in r ==> SameTypes(l[key], r[key])
    case (List(l), List(r)) => forall i | 0 <= i < |l| && i < |r| :: SameTypes(l[i], r[i])
    case (Null, Null) => true
    case (Bool(_), Bool(_)) => true
    case (Int(_), Int(_)) => true
    case (Float(_), Float(_)) => true
    case (Text(_), Text(_)) => true
    case _ => false
  }

  /** What Python's comparison misses is exactly a change of type. */
  lemma {:induction false} PythonEqualUpToTypes(left: Json, right: Json)
    ensures SameJson(left, right) <==> PythonEqual(left, right) && SameTypes(left, right)
  {
    match (left, right)
    case (Object(l), Object(r)) =>
      forall key | key in l && key in r
        ensures SameJson(l[key], r[key]) <==> PythonEqual(l[key], r[key]) && SameTypes(l[key], r[key])
      {
        PythonEqualUpToTypes(l[key], r[key]);
      }
    case (List(l), List(r)) =>
      forall i | 0 <= i < |l| && i < |r|
        ensures SameJson(l[i], r[i]) <==> PythonEqual(l[i], r[i]) && SameTypes(l[i], r[i])
      {
        PythonEqualUpToTypes(l[i], r[i]);
      }
    case _ =>
  }
}
