/** The untyped JavaScript values that reach the chat function: what
    `req.json()` produces, plus `undefined` for a property that is absent.
    Only the shape of a value matters to the function, so numbers are
    integers here and strings are sequences of UTF-16 code units, the unit
    that JavaScript's `.length` counts. */
module Json {

  datatype Option<+T> = None | Some(value: T)

  /** One UTF-16 code unit. */
  newtype CodeUnit = u: int | 0 <= u < 0x1_0000

  datatype Value =
    | Undefined
    | Null
    | Bool(b: bool)
    | Number(n: int)
    | Str(units: seq<CodeUnit>)
    | Arr(items: seq<Value>)
    // Property names are only ever compared with ASCII literals, so a Dafny
    // string serves for them; string values have their length measured, so
    // they are kept as UTF-16 code units.
    | Obj(fields: map<string, Value>)

  /** JavaScript's `typeof v === "object"`: true for null, arrays and objects. */
  predicate IsTypeofObject(v: Value) {
    v.Null? || v.Arr? || v.Obj?
  }

  /** Property lookup `v.name` for the own-data names the chat function
      reads (`messages`, `content`): an absent property, and such a property
      of a value that is not a plain object, reads as `undefined`. Looking up
      a property of `null` or `undefined` throws, hence the precondition. */
  function Property(v: Value, name: string): (r: Value)
    requires !v.Null? && !v.Undefined?
    requires name in {"content", "messages"}
    ensures r != Undefined ==> v.Obj? && name in v.fields && r == v.fields[name]
    ensures v.Obj? && name in v.fields ==> r == v.fields[name]
  {
    if v.Obj? && name in v.fields then v.fields[name] else Undefined
  }

  predicate IsAscii(s: string) {
    forall i :: 0 <= i < |s| ==> s[i] as int < 0x80
  }

  /** The UTF-16 encoding of an ASCII string literal: one unit per character. */
  function Ascii(s: string): (u: seq<CodeUnit>)
    requires IsAscii(s)
    ensures |u| == |s|
    ensures forall i :: 0 <= i < |s| ==> u[i] as int == s[i] as int
  {
    seq(|s|, i requires 0 <= i < |s| => s[i] as int as CodeUnit)
  }
}
