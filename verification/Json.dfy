/**
 JSON values as the canonical form, digests, records and routing see them: objects are maps,
 since `serde_json` compares objects without regard to key order and that code either sorts
 the keys or reads fields by name.  Code whose result is the printed text of a value it has
 read works on `Documents`, which keep the order.

 Dafny's `char` is a Unicode scalar value, exactly like Rust's, so `string` is the
 content of a Rust `String`.
 */
module Json {
  import opened Basics

  datatype Value =
    | Null
    | Bool(b: bool)
    | Int(i: Integer)
    | Float(text: string)  // a number that is neither `i64` nor `u64`, by its rendering
    | Str(s: string)
    | Arr(items: seq<Value>)
    | Obj(fields: map<string, Value>)

  /** `Value::get(key)`: `None` on anything but an object holding the key. */
  function Get(v: Value, key: string): Option<Value> {
    if v.Obj? && key in v.fields then Some(v.fields[key]) else None
  }

  /** `Option<&Value>::and_then(|v| v.get(key))`. */
  function GetIn(v: Option<Value>, key: string): Option<Value> {
    if v.Some? then Get(v.value, key) else None
  }

  /** `and_then(Value::as_str)`. */
  function AsStr(v: Option<Value>): Option<string> {
    if v.Some? && v.value.Str? then Some(v.value.s) else None
  }

  /** `and_then(Value::as_array)`. */
  function AsArray(v: Option<Value>): Option<seq<Value>> {
    if v.Some? && v.value.Arr? then Some(v.value.items) else None
  }

  /** `cloned().unwrap_or(Value::Null)`. */
  function OrNull(v: Option<Value>): Value {
    if v.Some? then v.value else Null
  }

  /** `Option<String>` through serde: `None` is JSON `null`. */
  function OptStr(s: Option<string>): Value {
    if s.Some? then Str(s.value) else Null
  }
}
