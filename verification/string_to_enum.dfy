/** `stringToEnum`: coerces a value into an enum, yielding `undefined` for
    anything that is not one of the enum's values. */
module StringToEnum {
  import opened Js

  /** `Object.values(enumObj).some(v => v === value)`, scanning the values
      in order. */
  function SomeEqual(values: seq<Value>, value: Value): (found: bool)
    ensures found <==> value in values
    decreases |values|
  {
    if |values| == 0 then false
    else values[0] == value || SomeEqual(values[1..], value)
  }

  /** `stringToEnum(enumObj, value)`, where `values` lists
      `Object.values(enumObj)`. Strict equality is value equality here:
      enum values are strings and numbers. */
  function StringToEnum(values: seq<Value>, value: Value): (r: Value)
    ensures value in values ==> r == value
    ensures value !in values ==> r == Undefined
  {
    if SomeEqual(values, value) then value else Undefined
  }

  /** A defined result is always one of the enum's values. */
  lemma DefinedResultIsMember(values: seq<Value>, value: Value)
    ensures StringToEnum(values, value) != Undefined ==> StringToEnum(values, value) in values
  {
  }

  /** Coercing an already coerced value changes nothing. */
  lemma StringToEnumIdempotent(values: seq<Value>, value: Value)
    ensures StringToEnum(values, StringToEnum(values, value)) == StringToEnum(values, value)
  {
  }
}
