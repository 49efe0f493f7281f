/** JSON values as the core reads them after `JSON.parse`. */
module JsonValues {
  import opened Wrappers
  import opened Strings

  /** Numbers are kept as integers; the core only compares and forwards them. */
  datatype Json =
    | JNull
    | JBool(b: bool)
    | JNum(n: int)
    | JStr(s: string)
    | JArr(items: seq<Json>)
    | JObj(fields: map<string, Json>)
  {
    /** JavaScript truthiness of the value. */
    predicate Truthy() {
      match this
      case JNull => false
      case JBool(b) => b
      case JNum(n) => n != 0
      case JStr(s) => s != ""
      case JArr(_) => true
      case JObj(_) => true
    }

    /** `value.key`: `undefined` (None) unless this is an object holding the key. */
    function Field(key: string): (r: Option<Json>)
      ensures r.Some? <==> this.JObj? && key in this.fields
    {
      if this.JObj? && key in this.fields then Some(this.fields[key]) else None
    }

    /** `value.key` when it is a string. */
    function StringField(key: string): (r: Option<string>)
      ensures r.Some? ==> Field(key) == Some(JStr(r.value))
    {
      match Field(key)
      case Some(JStr(s)) => Some(s)
      case _ => None
    }
  }

  /** An optional JSON value is truthy when present and truthy. */
  predicate IsTruthy(v: Option<Json>) {
    v.Some? && v.value.Truthy()
  }
  /** `v || fallback`. */
  function Or(v: Option<Json>, fallback: Json): (r: Json)
    ensures IsTruthy(v) ==> r == v.value
    ensures !IsTruthy(v) ==> r == fallback
  {
    if IsTruthy(v) then v.value else fallback
  }

  /**
   * `a === b` for two values of which at least one was freshly parsed:
   * `undefined` equals `undefined`, primitives compare by value, and two
   * distinct arrays or objects are never identical.
   */
  predicate StrictEquals(a: Option<Json>, b: Option<Json>) {
    if a.None? || b.None? then a.None? && b.None?
    else a.value == b.value && !a.value.JArr? && !a.value.JObj?
  }

  /** `value.type === t`. */
  predicate HasType(value: Json, t: string) {
    value.Field("type") == Some(JStr(t))
  }

  /** The outcome of `xs.find((m) => m.type === t)`. */
  datatype Lookup = Throws | NotFound | Found(index: nat, value: Json)

  /**
   * `xs.find((m) => m.type === t)`: reading `type` of a `null` element
   * throws, so the search fails at a `null` met before the first match.
   */
  function FindByType(xs: seq<Json>, t: string): (r: Lookup)
    ensures r.Found? ==> r.index < |xs| && r.value == xs[r.index] && HasType(r.value, t)
    ensures r.Found? ==> forall j :: 0 <= j < r.index ==> xs[j] != JNull && !HasType(xs[j], t)
    ensures r.Throws? ==> exists k :: 0 <= k < |xs| && xs[k] == JNull && forall j :: 0 <= j < k ==> !HasType(xs[j], t)
    ensures r.NotFound? <==> forall j :: 0 <= j < |xs| ==> xs[j] != JNull && !HasType(xs[j], t)
  {
    if xs == [] then NotFound
    else if xs[0] == JNull then Throws
    else if HasType(xs[0], t) then Found(0, xs[0])
    else match FindByType(xs[1..], t)
      case Throws =>
        var k :| 0 <= k < |xs[1..]| && xs[1..][k] == JNull && forall j :: 0 <= j < k ==> !HasType(xs[1..][j], t);
        assert xs[k + 1] == JNull && forall j :: 0 <= j < k + 1 ==> !HasType(xs[j], t);
        Throws
      case NotFound => NotFound
      case Found(k, v) => Found(k + 1, v)
  }

  /**
   * `String(value)`, the conversion `+` applies when one side is a
   * string: numbers in decimal, arrays joined with commas (`null` as the
   * empty string), objects as `[object Object]`.
   */
  function ToJsString(value: Json): string {
    match value
    case JNull => "null"
    case JBool(b) => if b then "true" else "false"
    case JNum(n) => IntToString(n)
    case JStr(s) => s
    case JArr(items) => JoinElements(items)
    case JObj(_) => "[object Object]"
  }

  function JoinElements(items: seq<Json>): string
    decreases items
  {
    if items == [] then ""
    else
      var first := if items[0] == JNull then "" else ToJsString(items[0]);
      if |items| == 1 then first else first + "," + JoinElements(items[1..])
  }
}
