/**
 * The dynamically typed values a filter map, an OR-list or a search hit can
 * hold, and `toString`, which renders the non-string ones.
 */
module Values {
  import opened Wrappers
  import opened Decimal

  /**
   * A Go `interface{}` value as the handlers see it.  `Int` stands for the
   * `int`, `int32` and `int64` cases, which all render in base 10; `Float`
   * stands for `float32` and `float64` and carries the text `FormatFloat`
   * gives for it; `List` is `[]interface{}`; `Object` is
   * `map[string]interface{}`; `Other` is every remaining dynamic type (nil,
   * other integer widths, typed slices, ...).
   */
  datatype Value =
    | Str(s: string)
    | Int(i: int)
    | Float(text: string)
    | Bool(b: bool)
    | List(items: seq<Value>)
    | Object(fields: seq<(string, Value)>)
    | Other

  /** `strconv.FormatBool`. */
  function FormatBool(b: bool): (r: string)
    ensures r == "true" || r == "false"
    ensures r == "true" <==> b
  {
    if b then "true" else "false"
  }

  /**
   * `toString`: decimal text for integers, the float's text, `true`/`false`
   * for booleans, and the empty string for every other type, strings included.
   */
  function ToString(v: Value): (r: string)
    ensures v.Int? ==> r == Itoa(v.i) && Atoi(r) == Some(v.i)
    ensures v.Bool? ==> (r == "true" <==> v.b) && (r == "false" <==> !v.b)
    ensures v.Float? ==> r == v.text
    ensures v.Str? || v.List? || v.Object? || v.Other? ==> r == ""
  {
    match v
    case Int(i) => ItoaRoundTrip(i); Itoa(i)
    case Float(t) => t
    case Bool(b) => FormatBool(b)
    case _ => ""
  }
}
