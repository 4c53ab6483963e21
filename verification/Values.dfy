// The values a mutation carries and a row holds, and the two judgements the
// merge passes on them (internal/sync/merge.go).
module Values {

  datatype Option<+T> = None | Some(value: T)

  /** A JSON value as a push decodes it. `Other` is an object or an array. */
  datatype Value =
    | Null
    | Text(text: string)
    | Number(number: real)
    | Boolean(truth: bool)
    | Other(json: string)

  /** Booleans are numbers: the database has no other place to put them. */
  predicate Numeric(v: Value) {
    v.Number? || v.Boolean?
  }

  function AsNumber(v: Value): real
    requires Numeric(v)
  {
    if v.Number? then v.number else if v.truth then 1.0 else 0.0
  }

  /** Equal across JSON and the database's types; an object or array equals nothing. */
  predicate SameValue(a: Value, b: Value) {
    if Numeric(a) then Numeric(b) && AsNumber(a) == AsNumber(b)
    else !a.Other? && a == b
  }

  predicate Truthy(v: Value) {
    Numeric(v) && AsNumber(v) != 0.0
  }

  /** What a column holds once a value is written to it. */
  function Stored(v: Value): Value {
    if v.Boolean? then Number(AsNumber(v)) else v
  }

  /** Storing a value loses nothing the merge can see. */
  lemma StoringKeepsTheValue(v: Value)
    ensures SameValue(v, Stored(v)) <==> !v.Other?
    ensures Truthy(Stored(v)) == Truthy(v)
  {
  }

  /** The database has no booleans, and stores everything else as it is. */
  lemma StoredExactly(v: Value)
    ensures !Stored(v).Boolean? && Stored(Stored(v)) == Stored(v) && (!v.Boolean? ==> Stored(v) == v)
  {
  }

  /** A "yes" is any number but zero, and the boolean that stands for one. */
  lemma TruthyExactly(v: Value)
    ensures Truthy(v) <==> v == Boolean(true) || (v.Number? && v.number != 0.0)
  {
  }

  /** One element of a set, whichever: how the source ranges over its maps. */
  method PickOne<T(==)>(s: set<T>) returns (x: T)
    requires s != {}
    ensures x in s
  {
    x :| x in s;
  }
}
