/** The value Python's `json.loads` hands back. The decoder itself is a
    foreign library and is not modelled; its outcome is an input of the
    model, as a `Decoded` value. */
module Json {

  /** JSON data as Python holds it after decoding. Numbers with a fraction or
      an exponent (and NaN, Infinity) become floats, whose value is kept only
      as its literal; an object becomes a dict, a finite map from keys to
      values. */
  datatype Value =
    | Null
    | Bool(b: bool)
    | Int(i: int)
    | Float(literal: string)
    | Str(s: string)
    | Arr(items: seq<Value>)
    | Obj(fields: map<string, Value>)

  /** The outcome of `json.loads(text)`: a value, or the message of the
      `JSONDecodeError` it raised. */
  datatype Decoded = Decoded(value: Value) | DecodeError(message: string)
}
