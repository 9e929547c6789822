/**
 The small vocabulary every other module shares: an optional value, the
 scalar values a venue JSON record can hold, and Python's truthiness and
 equality rules for them, which the replication bot relies on when it reads
 venue responses with `.get(...)`.
 */
module Common {

  datatype Option<+T> = None | Some(value: T) {

    /** Returns the value held in Some, or `default` when None. */
    function GetOr(default: T): T {
      match this
      case Some(v) => v
      case None => default
    }
  }

  /** A JSON scalar as Python sees it after `json()`: numbers (ints and floats
      alike), strings and booleans. A JSON null is not modelled. */
  datatype Scalar = Num(n: real) | Str(s: string) | Bool(b: bool)

  /** A JSON object with scalar members, as the venue returns one record. */
  type Record = map<string, Scalar>

  /** `record.get(key)`: the member when present, None otherwise. */
  function Get(record: Record, key: string): (r: Option<Scalar>)
    ensures r.Some? <==> key in record
    ensures r.Some? ==> r.value == record[key]
  {
    if key in record then Some(record[key]) else None
  }

  /** Python truthiness of a value read with `.get(...)`: a missing member
      (None), zero, the empty string and False are falsy. */
  predicate Truthy(v: Option<Scalar>) {
    match v
    case None => false
    case Some(Num(n)) => n != 0.0
    case Some(Str(s)) => s != ""
    case Some(Bool(b)) => b
  }

  /** Python `v == 1`: true for the number 1 (int or float) and for True,
      since `True == 1` in Python; false for strings and for None. */
  predicate EqualsOne(v: Option<Scalar>) {
    v == Some(Num(1.0)) || v == Some(Bool(true))
  }
}
