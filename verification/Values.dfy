/** Documents as the store holds them: dictionaries of JSON-like Python values. */
module Values {
  import opened Text

  /** A `datetime` (time present) or a plain `date` (time absent), as the parts `isoformat` prints. */
  datatype Moment = Moment(date: string, time: Option<string>, zone: Option<string>)

  /** A Python float; a finite one is the real number it stands for. */
  datatype Number = Finite(r: real) | NegativeZero | Infinite(negative: bool) | NotANumber

  datatype Value =
    | Null
    | Bool(b: bool)
    | Int(i: int)
    | Float(f: Number)
    | Str(s: string)
    | Time(m: Moment)
    | List(xs: seq<Value>)
    | Dict(fields: map<string, Value>)
    | Other(text: string) // any other object, known only by what str() prints

  type Doc = map<string, Value>
}
