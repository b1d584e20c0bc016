/**
 * The JSON documents the servers receive, as abstract values rather than text.
 * Only what the property lookups of the two decoders can tell apart is kept:
 * a number is either written as a plain integer or not, and an object is a
 * map from property names to values.
 */
module Json {
  import opened Common

  datatype Value =
    | Null
    | Bool(b: bool)
    | Str(s: string)
    | Integer(n: int)     // a number literal without fraction or exponent
    | NegativeZero        // the integer literal -0
    | NonInteger          // a number literal with a fraction or an exponent
    | Array(items: seq<Value>)
    | Object(props: map<string, Value>)

  /** What parsing one text frame gives: a syntax error, or a document with its root value. */
  datatype Document = Malformed | Parsed(root: Value)

  /** The exceptions of the C# reader (`JsonException`, `InvalidOperationException`, `FormatException`). */
  datatype Fault = ParseFailure | NotAnObject | NotAString | NotAnInt32

  /**
   * `JsonElement.TryGetProperty`: throws on anything but an object, and
   * otherwise reports whether the (ordinal, case-sensitive) name is present.
   */
  function TryGetProperty(v: Value, name: string): (r: Result<Option<Value>, Fault>)
    ensures r.Err? <==> !v.Object?
    ensures r.Err? ==> r.error == NotAnObject
    ensures r.Ok? ==> (r.value.Some? <==> name in v.props)
    ensures r.Ok? && r.value.Some? ==> r.value.value == v.props[name]
  {
    match v
    case Object(props) => if name in props then Ok(Some(props[name])) else Ok(None)
    case _ => Err(NotAnObject)
  }

  /** `JsonElement.GetString`: a string, `null` for a JSON null, and a throw for anything else. */
  function GetString(v: Value): (r: Result<Option<string>, Fault>)
    ensures r.Ok? <==> v.Str? || v.Null?
    ensures r.Ok? && r.value.Some? <==> v.Str?
    ensures v.Str? ==> r == Ok(Some(v.s))
    ensures r.Err? ==> r.error == NotAString
  {
    match v
    case Str(s) => Ok(Some(s))
    case Null => Ok(None)
    case _ => Err(NotAString)
  }

  /**
   * `JsonElement.GetInt32`: succeeds exactly on integer literals that fit in
   * 32 bits, and reads -0 as 0.
   */
  function GetInt32(v: Value): (r: Result<Int32, Fault>)
    ensures r.Ok? <==> (v.Integer? && InInt32(v.n)) || v.NegativeZero?
    ensures r.Ok? && v.Integer? ==> r.value == v.n
    ensures v.NegativeZero? ==> r == Ok(0)
    ensures r.Err? ==> r.error == NotAnInt32
  {
    if v.Integer? && InInt32(v.n) then Ok(v.n)
    else if v.NegativeZero? then Ok(0)
    else Err(NotAnInt32)
  }
}
