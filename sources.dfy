/** The values a migration run receives from a source platform. */
module Sources {

  /** A Go `interface{}` value as it occurs in the configuration maps
      (decoded JSON): nil, a string, a number, a boolean, a list or an object. */
  datatype Value =
    | Nil
    | Str(s: string)
    | Num(n: int)
    | Bool(b: bool)
    | Arr(items: seq<Value>)
    | Obj(fields: map<string, Value>)

  /** One application of the source platform (the `AppConfig` interface):
      its name, the raw application record (`App()`), the attribute bag
      used for translation (`Map()`) and its estimated monthly cost. */
  datatype AppConfig = AppConfig(
    name: string,
    app: map<string, Value>,
    attributes: map<string, Value>,
    cost: real)
}
