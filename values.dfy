/** JavaScript values as the content records carry them, and the two
    operators the route and the pages use to pick among alternatives:
    nullish coalescing (`??`) and logical or (`||`). */
module Values {

  datatype Option<T> = None | Some(value: T)

  /** A JSON-like scalar. Numbers are modelled as integers. */
  datatype Val = Undefined | Null | Bool(b: bool) | Num(n: int) | Str(s: string)

  /** A record: a plain object whose keys are strings. A key that is not
      in the map reads as `undefined`. */
  type Row = map<string, Val>

  function Field(row: Row, key: string): (v: Val)
    ensures key !in row ==> v == Undefined
    ensures key in row ==> v == row[key]
  {
    if key in row then row[key] else Undefined
  }

  /** JavaScript truthiness: undefined, null, false, 0 and "" are falsy. */
  predicate Truthy(v: Val) {
    match v
    case Undefined => false
    case Null => false
    case Bool(b) => b
    case Num(n) => n != 0
    case Str(s) => s != ""
  }

  /** Neither null nor undefined: the test `??` applies. */
  predicate Present(v: Val) {
    !v.Undefined? && !v.Null?
  }

  /** `vs[0] ?? vs[1] ?? ... ?? null`. */
  function Coalesce(vs: seq<Val>): (r: Val)
    ensures r.Null? || Present(r)
    ensures r.Null? <==> forall j :: 0 <= j < |vs| ==> !Present(vs[j])
    ensures forall i :: 0 <= i < |vs| && Present(vs[i]) && NonePresentBefore(vs, i) ==> r == vs[i]
  {
    if vs == [] then Null
    else if Present(vs[0]) then vs[0]
    else Coalesce(vs[1..])
  }

  /** No alternative before index `i` is present. */
  predicate NonePresentBefore(vs: seq<Val>, i: int) {
    forall j :: 0 <= j < i && j < |vs| ==> !Present(vs[j])
  }

  /** `a || b`. */
  function Or(a: Val, b: Val): (r: Val)
    ensures Truthy(a) ==> r == a
    ensures !Truthy(a) ==> r == b
  {
    if Truthy(a) then a else b
  }

  /** A record after `JSON.stringify` and parsing back: keys whose value is
      undefined are dropped, every other entry is kept. */
  function Serialize(row: Row): (r: Row)
    ensures forall k :: k in r <==> k in row && !row[k].Undefined?
    ensures forall k :: k in r ==> r[k] == row[k]
  {
    map k | k in row && !row[k].Undefined? :: row[k]
  }

  /** Reading a field cannot tell a record from its serialised form. */
  lemma SerializeKeepsFields(row: Row, key: string)
    ensures Field(Serialize(row), key) == Field(row, key)
  {
  }
}
