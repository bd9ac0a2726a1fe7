/**
 * A model of modules/example_module.py: three pure functions of the
 * application skeleton -- building a greeting, adding two numbers and
 * tagging a list or dictionary with its shape.
 *
 * Python values that reach `process_data` are modelled by `Value`; the
 * exception it raises is modelled by the `Raise` case of `Result`.
 */
module ExampleModule {

  /** The Python values the model distinguishes. Dictionary keys are strings. */
  datatype Value =
    | ListV(items: seq<Value>)
    | DictV(entries: map<string, Value>)
    | TupleV(elems: seq<Value>)
    | StrV(s: string)
    | IntV(i: int)
    | BoolV(b: bool)
    | NoneV

  /** The Python exceptions the core raises. */
  datatype Exception = TypeError(message: string)

  /** A Python call either returns a value or raises an exception. */
  datatype Result<+T> = Ok(value: T) | Raise(exc: Exception)

  datatype Option<+T> = None | Some(value: T)

  const GreetingPrefix: string := "Hello, "
  const GreetingSuffix: string := "!"

  /** The message of the only exception the core raises. */
  const NotListOrDictMessage: string := "Data must be a list or dictionary"

  /** The keys of the dictionary `process_data` returns. */
  const OriginalKey: string := "original"
  const TypeKey: string := "type"
  const ProcessedKey: string := "processed"

  // ---------------------------------------------------------------------------
  // greet
  // ---------------------------------------------------------------------------

  /**
   * `greet(name)`: the name between the prefix "Hello, " and the suffix "!".
   * Every string, the empty one included, is accepted.
   */
  function Greet(name: string): (r: string)
    ensures |r| == |name| + 8
    ensures r[..7] == GreetingPrefix
    ensures r[7..|r| - 1] == name
    ensures r[|r| - 1] == '!'
  {
    GreetingPrefix + name + GreetingSuffix
  }

  /**
   * Helper of `GreetedName`: what follows `prefix` in `s`, or `None` when `s`
   * does not start with `prefix`; compares one character at a time.
   */
  function AfterPrefix(prefix: string, s: string): (r: Option<string>)
    ensures r.Some? <==> |prefix| <= |s| && s[..|prefix|] == prefix
    ensures r.Some? ==> r.value == s[|prefix|..]
  {
    if prefix == [] then Some(s)
    else if s != [] && s[0] == prefix[0] then
      AfterPrefix(prefix[1..], s[1..])
    else None
  }

  /**
   * The inverse of `Greet`: the name a greeting was built from, or `None`
   * for a string that is not a greeting.
   */
  function GreetedName(msg: string): (r: Option<string>)
    ensures r.Some? ==> |r.value| + 8 == |msg|
  {
    match AfterPrefix(GreetingPrefix, msg)
    case Some(rest) =>
      if rest != [] && rest[|rest| - 1] == '!' then Some(rest[..|rest| - 1]) else None
    case None => None
  }

  /** Reading a greeting back yields the name it was built from. */
  lemma GreetRoundTrip(name: string)
    ensures GreetedName(Greet(name)) == Some(name)
  {
    var rest := Greet(name)[7..];
    assert rest[..|rest| - 1] == name;
  }

  /** Every string `GreetedName` accepts is exactly the greeting of what it returns. */
  lemma GreetedNameSound(msg: string)
    ensures GreetedName(msg).Some? ==> Greet(GreetedName(msg).value) == msg
  {
  }

  /** Different names give different greetings. */
  lemma GreetInjective(a: string, b: string)
    ensures Greet(a) == Greet(b) <==> a == b
  {
  }

  /** The cases the test suite checks: "Alice" and the empty name. */
  lemma GreetExamples()
    ensures Greet("Alice") == "Hello, Alice!"
    ensures Greet("") == "Hello, !"
  {
  }

  // ---------------------------------------------------------------------------
  // calculate_sum
  // ---------------------------------------------------------------------------

  /**
   * `calculate_sum(a, b)` on integers. Python integers are unbounded, so the
   * sum never wraps around.
   */
  function CalculateSum(a: int, b: int): (r: int)
    ensures r - b == a
    ensures r - a == b
  {
    a + b
  }

  /** The cases the test suite checks. */
  lemma CalculateSumExamples()
    ensures CalculateSum(5, 10) == 15
    ensures CalculateSum(-5, -10) == -15
    ensures CalculateSum(10, -5) == 5
  {
  }

  // ---------------------------------------------------------------------------
  // process_data
  // ---------------------------------------------------------------------------

  /** `type(v).__name__` for the values of the model. */
  function TypeName(v: Value): (name: string)
  {
    match v
    case ListV(_) => "list"
    case DictV(_) => "dict"
    case TupleV(_) => "tuple"
    case StrV(_) => "str"
    case IntV(_) => "int"
    case BoolV(_) => "bool"
    case NoneV => "NoneType"
  }

  /** `isinstance(v, (list, dict))` for the plain list and dict of the model. */
  predicate IsListOrDict(v: Value)
  {
    v.ListV? || v.DictV?
  }

  /** The type name tells a list apart from every other value, and so for a dict. */
  lemma TypeNameIdentifiesShape(v: Value)
    ensures TypeName(v) == "list" <==> v.ListV?
    ensures TypeName(v) == "dict" <==> v.DictV?
  {
  }

  /**
   * `process_data(data)`: a list or a dict comes back inside a new dictionary
   * with exactly three keys -- the input under "original", its type name under
   * "type" and `True` under "processed"; anything else raises `TypeError`
   * with the fixed message.
   */
  function ProcessData(data: Value): (r: Result<Value>)
    ensures r.Ok? <==> IsListOrDict(data)
    ensures r.Raise? ==> r.exc == TypeError(NotListOrDictMessage)
    ensures r.Ok? ==> r.value.DictV?
    ensures r.Ok? ==> r.value.entries.Keys == {OriginalKey, TypeKey, ProcessedKey}
    ensures r.Ok? ==> r.value.entries[OriginalKey] == data
    ensures r.Ok? ==> r.value.entries[TypeKey] == StrV(if data.ListV? then "list" else "dict")
    ensures r.Ok? ==> r.value.entries[ProcessedKey] == BoolV(true)
  {
    if !IsListOrDict(data) then
      Raise(TypeError(NotListOrDictMessage))
    else
      Ok(DictV(map[OriginalKey := data, TypeKey := StrV(TypeName(data)), ProcessedKey := BoolV(true)]))
  }

  /** The input of a successful call has type name "list" or "dict", matching its shape. */
  lemma ProcessDataTypeMatchesShape(data: Value)
    requires ProcessData(data).Ok?
    ensures TypeName(data) == "list" || TypeName(data) == "dict"
    ensures TypeName(data) == "list" <==> data.ListV?
  {
  }

  /**
   * What `process_data` returns is a dict, so it is accepted again: processing
   * the result wraps it once more, with type "dict".
   */
  lemma ProcessDataResultIsAccepted(data: Value)
    requires ProcessData(data).Ok?
    ensures ProcessData(ProcessData(data).value).Ok?
    ensures ProcessData(ProcessData(data).value).value.entries[TypeKey] == StrV("dict")
  {
  }

  /** The cases the test suite checks: [1, 2, 3], {"key": "value"}, "invalid" and 42. */
  lemma ProcessDataExamples()
    ensures var l := ListV([IntV(1), IntV(2), IntV(3)]);
      ProcessData(l) == Ok(DictV(map[OriginalKey := l, TypeKey := StrV("list"), ProcessedKey := BoolV(true)]))
    ensures var d := DictV(map["key" := StrV("value")]);
      ProcessData(d) == Ok(DictV(map[OriginalKey := d, TypeKey := StrV("dict"), ProcessedKey := BoolV(true)]))
    ensures ProcessData(StrV("invalid")) == Raise(TypeError("Data must be a list or dictionary"))
    ensures ProcessData(IntV(42)) == Raise(TypeError("Data must be a list or dictionary"))
  {
  }

  /** A tuple is an ordered sequence but not a list, and it is rejected. */
  lemma ProcessDataRejectsTuple(elems: seq<Value>)
    ensures ProcessData(TupleV(elems)).Raise?
  {
  }
}
