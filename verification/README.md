# Application skeleton: example module

A Dafny model of `modules/example_module.py`, the only logic of a small
Python application skeleton. The module has three pure functions:

- `greet(name)` builds the greeting `"Hello, " + name + "!"`;
- `calculate_sum(a, b)` adds two numbers;
- `process_data(data)` accepts a list or a dict and returns a new dict
  `{"original": data, "type": <"list" or "dict">, "processed": True}`;
  any other value raises `TypeError("Data must be a list or dictionary")`.

Everything is in `example_module.dfy`, module `ExampleModule`. The datatype
`Value` models the Python values passed to `process_data`: list, dict, tuple,
str, int, bool and None. A raised exception is the `Raise` case of `Result`,
so the error path is a value like any other result. The dict that
`process_data` returns is itself a `Value` (`DictV`), as in Python.
`GreetedName` reads a greeting back. It is the inverse of `Greet`, and the
greeting lemmas are stated against it. Its helper `AfterPrefix` strips the
"Hello, " prefix one character at a time.

The type test is `isinstance(data, (list, dict))`
(modules/example_module.py:41), so a tuple is rejected even though it is an
ordered sequence (`ProcessDataRejectsTuple`).

## Model

| member | source | states |
|---|---|---|
| ExampleModule.Greet | modules/example_module.py:4-14 | the greeting is `|name| + 8` characters long: "Hello, ", then exactly `name`, then '!' |
| ExampleModule.GreetRoundTrip | modules/example_module.py:14 | reading a greeting back with `GreetedName` returns exactly the name it was built from |
| ExampleModule.GreetedNameSound | modules/example_module.py:14 | every string `GreetedName` accepts is the greeting of the name it returns, so greetings are exactly the strings of that shape |
| ExampleModule.GreetInjective | modules/example_module.py:14 | two names give the same greeting if and only if they are equal |
| ExampleModule.GreetExamples | tests/test_example_module.py:8-17 | "Alice" gives "Hello, Alice!" and the empty name gives "Hello, !" |
| ExampleModule.CalculateSum | modules/example_module.py:17-28 | the sum minus either operand is the other operand, for all integers and with no wrap-around |
| ExampleModule.CalculateSumExamples | tests/test_example_module.py:20-35 | (5, 10) gives 15, (-5, -10) gives -15 and (10, -5) gives 5 |
| ExampleModule.ProcessData | modules/example_module.py:31-50 | succeeds if and only if the input is a list or a dict; otherwise raises `TypeError` with exactly "Data must be a list or dictionary"; on success returns a dict with exactly the keys "original", "type" and "processed", holding the input unchanged, "list" or "dict" matching its shape, and `True` |
| ExampleModule.TypeNameIdentifiesShape | modules/example_module.py:46 | the type name is "list" exactly for a list and "dict" exactly for a dict |
| ExampleModule.ProcessDataTypeMatchesShape | modules/example_module.py:41-46 | on success the input's type name is "list" or "dict", and it is "list" exactly when the input is a list |
| ExampleModule.ProcessDataResultIsAccepted | modules/example_module.py:39-50 | the result is a dict, so processing it again succeeds and tags it "dict" |
| ExampleModule.ProcessDataExamples | tests/test_example_module.py:38-65 | `[1, 2, 3]` is tagged "list", `{"key": "value"}` is tagged "dict", and "invalid" and 42 raise `TypeError` with the fixed message |
| ExampleModule.ProcessDataRejectsTuple | modules/example_module.py:41-42 | a tuple raises `TypeError`, although it is an ordered sequence |

## Left out

- `app/main.py` is not part of this model. It only prints three lines to standard output and returns 0.
- The `sys.path` set-up and `sys.exit` in `app/main.py` are interpreter and process plumbing.
- `calculate_sum` is modelled on integers only. Python's float addition and its `+` on strings and lists are left out.
- `greet` is modelled for string names only. For other objects, the f-string would format the name with `str()`.
- `process_data` is modelled for plain lists and dicts only. `isinstance` also accepts their subclasses, and for those the "type" entry would be the subclass's name (for example `OrderedDict`).
- Other Python types that can reach `process_data` are not represented: floats, sets, bytes and arbitrary objects. The type test rejects every value other than a list or a dict, so they would all raise the same `TypeError`.
- Dict keys are strings in the model. Python accepts any hashable key.
- The "original" entry holds the input by reference in Python. The model holds it as an equal value, and that equality is what the tests check.
