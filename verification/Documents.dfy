/**
 JSON values with the key order of their objects, which `serde_json` keeps when it parses
 and follows when it prints (`preserve_order`).  Two texts that differ only in key order are
 two documents.

 An object that the code builds itself carries no order: such objects are read by key and
 never printed by the code modelled here, so their order is not observed.
 */
module Documents {
  import opened Basics

  datatype Value =
    | Null
    | Bool(b: bool)
    | Int(i: Integer)
    | Float(text: string)  // a number that is neither `i64` nor `u64`, by its rendering
    | Str(s: string)
    | Arr(items: seq<Value>)
    | Object(fields: map<string, Value>, order: seq<string>)

  /** An object the code builds itself. */
  function Obj(fields: map<string, Value>): Value {
    Object(fields, [])
  }

  /** `Value::get(key)`: `None` on anything but an object holding the key. */
  function Get(v: Value, key: string): Option<Value> {
    if v.Object? && key in v.fields then Some(v.fields[key]) else None
  }

  /** `Option<&Value>::and_then(|v| v.get(key))`. */
  function GetIn(v: Option<Value>, key: string): Option<Value> {
    if v.Some? then Get(v.value, key) else None
  }

  /** `and_then(Value::as_str)`. */
  function AsStr(v: Option<Value>): Option<string> {
    if v.Some? && v.value.Str? then Some(v.value.s) else None
  }

  /** `and_then(Value::as_array)`. */
  function AsArray(v: Option<Value>): Option<seq<Value>> {
    if v.Some? && v.value.Arr? then Some(v.value.items) else None
  }

  /** `cloned().unwrap_or(Value::Null)`. */
  function OrNull(v: Option<Value>): Value {
    if v.Some? then v.value else Null
  }

  /** `Option<String>` through serde: `None` is JSON `null`. */
  function OptStr(s: Option<string>): Value {
    if s.Some? then Str(s.value) else Null
  }
}
