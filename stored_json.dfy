/** The few JSON values the pages read back from browser storage, and the
    JavaScript truthiness that `x || fallback` tests. */
module StoredJson {

  datatype Value = Null | Bool(b: bool) | Number(n: real) | Str(s: string)

  /** A parsed JSON object. */
  type Object = map<string, Value>

  /** `obj.key`: a missing key reads as `undefined`, which behaves as `null`
      in every test made here. */
  function Field(obj: Object, key: string): (v: Value)
    ensures key !in obj ==> v == Null
    ensures key in obj ==> v == obj[key]
  {
    if key in obj then obj[key] else Null
  }

  /** JavaScript truthiness. */
  predicate Truthy(v: Value)
  {
    match v
    case Null => false
    case Bool(b) => b
    case Number(n) => n != 0.0
    case Str(s) => s != ""
  }

  /** `value || fallback` where a string is expected. */
  function StringOr(v: Value, fallback: string): (r: string)
    ensures v.Str? && v.s != "" ==> r == v.s
    ensures !Truthy(v) ==> r == fallback
  {
    if v.Str? && v.s != "" then v.s else fallback
  }

  /** Reading back a stored string: a non-empty one comes back as it was,
      the empty one as the fallback. */
  lemma StringRoundTrip(s: string, fallback: string)
    ensures StringOr(Str(s), fallback) == (if s == "" then fallback else s)
  {
  }
}
