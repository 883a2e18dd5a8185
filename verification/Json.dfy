/** Decoded JSON as encoding/json hands it to the panel's rewriters. */
module Json {
  import opened Options
  import opened GoStrings

  /** `Fraction` is a number that is not an integer. */
  datatype Value =
    | Null
    | Bool(b: bool)
    | Number(n: int)
    | Fraction(digits: string)
    | Str(s: string)
    | Arr(items: seq<Value>)
    | Obj(fields: map<string, Value>)

  function Get(v: Value, key: string): Option<Value> {
    if v.Obj? && key in v.fields then Some(v.fields[key]) else None
  }

  /** The two-value type assertions to a string and to a map, with Go's zero values. */
  function StrOf(v: Option<Value>): string { if v.Some? && v.value.Str? then v.value.s else "" }

  function FieldsOf(v: Option<Value>): map<string, Value> { if v.Some? && v.value.Obj? then v.value.fields else map[] }

  function ItemsOf(v: Option<Value>): seq<Value> { if v.Some? && v.value.Arr? then v.value.items else [] }

  function Lower(s: string): string {
    if s == [] then [] else [if 'A' <= s[0] <= 'Z' then (s[0] as int + 32) as char else s[0]] + Lower(s[1..])
  }

  /** strings.EqualFold, on ASCII letters. */
  predicate EqualFold(a: string, b: string) { Lower(a) == Lower(b) }
}
