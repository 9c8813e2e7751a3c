# Custom keywords of a JSON Schema validator, in Dafny

This project models the plug-in seam through which third-party code adds new
keywords to the gojsonschema validator, and the `range` keyword that the
repository implements through it.

- `JsonValues` (`json_values.dfy`): decoded JSON values as a handler receives
  them; numbers are exact rationals.
- `CustomKeywords` (`custom_keywords.dfy`): the `CustomKeyword` capability with
  its three operations (`GetKeyword`, `ValidateSchema` at schema-compile time,
  `Validate` at document-validation time), the binding record
  `CustomKeywordValue` that pairs one keyword value with its handler, the error
  record `CustomKeywordError` with its constructor `NewCustomKeywordError`, and
  `ErrorDetails`, the map of template substitution values. A Go interface value
  is modelled as a record of functions; `Validate` is a partial function whose
  precondition is that the handler's own schema check accepted the keyword
  value, and `Conforms` states that protocol.
- `RangeKeyword` (`range_keyword.dfy`): the `range` keyword. Its schema check
  accepts exactly an array of two numbers and rejects anything else with one
  fixed message; its document check passes when the document's number lies
  between the two declared numbers, both ends included, and otherwise returns
  the error `range` / `must be between {{.min}} and {{.max}}` with details
  `min` and `max`. `TestRangeKeyword` is that keyword as a `CustomKeyword`.
- `Wrappers` (`wrappers.dfy`): `Option`, standing for Go's `nil`-able results.

The Go `Validate` of the range keyword reads a document value that is not a
number as 0: the failed type assertion yields an empty number token and the
failed parse of that token yields 0, and both failures are ignored. The model
keeps this behaviour. Bounds are read without checking their order, so a
declaration `[hi, lo]` with `hi > lo` is accepted and then rejects every
document value; the model keeps this too. Both statements hold for exact
numbers; the Go code reads bounds and values through float64, where they can
fail (see "## Left out").

## Model

| member | source | states |
|---|---|---|
| CustomKeywords.NewCustomKeywordError | custom_keywords.go:20-25 | the error carries the given keyword and the given template unchanged and unrendered; the embedded result fields stay at their zero value |
| CustomKeywords.NewCustomKeywordErrorInjective | custom_keywords.go:20-25 | two constructed errors are equal exactly when built from equal keyword and template |
| CustomKeywords.BindingStoresExactly | custom_keywords.go:9-12 | a binding gives back exactly the value and the handler it was built from, and a conforming handler can check any document value against a bound value its schema check accepted |
| RangeKeyword.RangeKeywordConforms | custom_keywords.go:3-7 | the range keyword implements the capability: its name is `range`, its operations are the ones below, and every value its schema check accepts may be passed to its document check |
| RangeKeyword.GetKeyword | custom_keywords_test.go:68-70 | the keyword's name is always `range` |
| RangeKeyword.ValidateSchema | custom_keywords_test.go:72-90 | accepts a value exactly when it is an array of two numbers `[lo, hi]`; every rejection carries the message `range must be an array containing exactly 2 numbers` |
| RangeKeyword.InvalidDeclarationMessage | custom_keywords_test.go:72-90 | a string, a one- or three-element array, and a two-element array with a non-number element are each rejected with that same message |
| RangeKeyword.Bounds | custom_keywords_test.go:96-100 | the bounds read from an accepted value are its first and second elements, and rebuilding the declaration from them gives the value back |
| RangeKeyword.DeclarationRoundTrip | custom_keywords_test.go:72-100 | every declaration `[lo, hi]` is accepted and reads back as `(lo, hi)` |
| RangeKeyword.DocumentNumber | custom_keywords_test.go:93-94 | a number document value is read as itself; any other value is read as 0 |
| RangeKeyword.Validate | custom_keywords_test.go:92-109 | passes with no error and no details exactly when min <= value <= max; on failure returns the `range` error with the template `must be between {{.min}} and {{.max}}` and details `{min, max}` |
| RangeKeyword.ValidateInclusive | custom_keywords_test.go:104-108 | a number passes `[lo, hi]` exactly when lo <= v <= hi; v == lo and v == hi both pass |
| RangeKeyword.FailureReport | custom_keywords_test.go:102-105 | every failure has keyword `range` (the handler's own name), the fixed template, zero result fields, and details with exactly the keys `min` and `max` bound to the first and second declared elements |
| RangeKeyword.NonNumberReadAsZero | custom_keywords_test.go:93-94 | a non-number document value is checked as 0, so it passes exactly when min <= 0 <= max |
| RangeKeyword.InvertedBoundsRejectAll | custom_keywords_test.go:72-109 | a declaration with its first element above its second is accepted and then rejects every document value |
| RangeKeyword.EveryRangeRejectsSomeValue | custom_keywords_test.go:92-109 | every accepted declaration rejects some document value |
| RangeKeyword.OrderedRangeAcceptsSomeValue | custom_keywords_test.go:92-109 | a declaration with ordered bounds accepts some document value |
| RangeKeyword.ExercisedOutcomes | custom_keywords_test.go:11-49 | for the declarations `[10, 20]` and `[20, 30]` of the test schemas, 15 and 25 pass, while 1, 50 and 100 fail, with the bounds as details |

## Left out

- The registry (`AddCustomKeyword`), the schema compiler that finds keyword occurrences and stores bindings, the document walk that calls `Validate`, and the aggregation of results (`NewSchema`, `schema.Validate`, `result.Errors()`): that code is not part of this model. The error counts the test drivers expect (custom_keywords_test.go:111-186) come from it and are not stated; in the nested-schema test, `d` sits under `a` in the schema but under `b` in the document, which is why one error is expected there and not two.
- Rendering of `{{.min}}`/`{{.max}}` templates and the contents of the embedded `ResultErrorFields`: both are defined outside these files; the fields are a record of named values whose zero value has none set.
- The `json.Number` to float64 conversion: numbers are exact rationals, so float64 rounding, overflow to infinity and comparison at precision edges are not modelled. Numbers are not carried as decimal tokens either. The two lemmas below depend on exact numbers and do not hold of the Go code at those edges.
- RangeKeyword.EveryRangeRejectsSomeValue: holds only for exact numbers; in Go the declaration `[-1e400, 1e400]` passes the schema check (a number token is only checked for syntax), its bounds read as -Inf and +Inf, and every document value passes.
- RangeKeyword.InvertedBoundsRejectAll: holds only for exact numbers; in Go the declaration `[1.00000000000000001, 1]` has its first element above its second, yet both bounds round to 1.0 and the document value `1` passes.
- Dynamic dispatch over arbitrary handler implementations: the capability is a record of functions, so a handler is any such record; handler identity and pointer receivers are not modelled.
- Concurrent calls of a handler: handlers here are pure functions, so concurrency has nothing to observe.
- RangeKeyword.Validate: a keyword value the schema check rejected is excluded by its precondition, since schema construction fails on such a value before any document is checked. The Go code would panic on a non-array, on an array shorter than two, or on a non-number among its first two elements; on a longer array whose first two elements are numbers (such as `[10, 20, 30]` or `[10, 20, "x"]`) it returns normally, using those two elements as the bounds, and the model says nothing about that case.
