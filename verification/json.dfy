/**
 The parsed body of a JSON request, as Flask's `request.get_json()` hands it to a
 view, and the two Python idioms the views apply to it: truthiness (`if not data`)
 and `(data.get(key) or '')` followed by a string method.
 */
module Json {

  /** A JSON value. Only whether a number is zero matters to the views, so a number
      is represented by an integer. */
  datatype Value =
    | Null
    | Bool(b: bool)
    | Number(n: int)
    | Str(s: string)
    | Array(items: seq<Value>)
    | Object(fields: map<string, Value>)

  /** Python truthiness of the decoded value. */
  predicate Truthy(v: Value) {
    match v
    case Null => false
    case Bool(b) => b
    case Number(n) => n != 0
    case Str(s) => |s| > 0
    case Array(items) => |items| > 0
    case Object(fields) => |fields| > 0
  }

  /** What `(fields.get(key) or '')` yields when the next call is a `str` method:
      the string, or `NoStrMethod` when the field holds a truthy non-string value
      (a number, `true`, a non-empty list or object), on which Python raises
      `AttributeError`. */
  datatype FieldText = Found(text: string) | NoStrMethod

  function FieldOr(fields: map<string, Value>, key: string): (r: FieldText)
    ensures key !in fields ==> r == Found("")
    ensures r.Found? && |r.text| > 0 ==> key in fields && fields[key] == Str(r.text)
    ensures r.NoStrMethod? <==> key in fields && Truthy(fields[key]) && !fields[key].Str?
    ensures key in fields && fields[key].Str? ==> r == Found(fields[key].s)
  {
    if key !in fields || !Truthy(fields[key]) then Found("")
    else if fields[key].Str? then Found(fields[key].s)
    else NoStrMethod
  }
}
