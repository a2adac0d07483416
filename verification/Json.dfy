/** JSON documents and the lenient access the gateway makes to them: indexing what is not
    there yields null. Reading and printing JSON text is a parameter of the functions that
    need it. */
module Json {
  import opened Wrappers

  datatype Value =
    | Null
    | Bool(flag: bool)
    | Num(number: int)
    | Str(text: string)
    | Arr(items: seq<Value>)
    | Obj(fields: map<string, Value>)

  type Parser = string -> Option<Value>
  type Printer = Value -> string

  function Field(v: Value, name: string): Value {
    if v.Obj? && name in v.fields then v.fields[name] else Null
  }

  function Item(v: Value, i: nat): Value {
    if v.Arr? && i < |v.items| then v.items[i] else Null
  }

  function AsStr(v: Value): Option<string> {
    if v.Str? then Some(v.text) else None
  }

  function AsArray(v: Value): seq<Value> {
    if v.Arr? then v.items else []
  }

  function AsU64(v: Value): Option<nat> {
    if v.Num? && 0 <= v.number < 0x1_0000_0000_0000_0000 then Some(v.number) else None
  }

  function AsI64(v: Value): Option<int> {
    if v.Num? && -0x8000_0000_0000_0000 <= v.number < 0x8000_0000_0000_0000 then Some(v.number) else None
  }

  function Get(v: Value, name: string): Option<Value> {
    if v.Obj? && name in v.fields then Some(v.fields[name]) else None
  }

  function OrElse<T>(first: Option<T>, second: Option<T>): Option<T> {
    if first.Some? then first else second
  }

  function OrDefault<T>(o: Option<T>, default: T): T {
    if o.Some? then o.value else default
  }
}
