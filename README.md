# go-validation, modelled in Dafny

This project models the core of the Go library `go-validation`, a
rule-based validator for Go values:

- the validation engine (`validation.go`): the `Rules` combinator, `Struct`
  with its field-name table, `structRule.validate` and `nameOf`;
- the error tree and its `Error()` renderings (`errors.go`);
- the rule families: `rule/generic.go`, `rule/str.go`, `rule/slice.go`,
  and `rule/num.go` for `int` and `uint` operands;
- the two JSON error flatteners (`json/json.go` and `jsonerr/jsonerr.go`).

A rule is a function from a `Value` to `Option<Err>`, where `None` is Go's
`nil`. Go's `interface{}` and reflection are replaced by the `Value` sum
type in `values.dfy`. That type covers strings, `int`, `uint`, slices,
structs with declared field offsets, pointers with addresses,
`validation.Context`, and opaque nilable values. The internal failure
`validation.Panic` is one variant of `Err`.

Loops that accumulate errors are modelled as imperative methods:
`RunRules`, `Validate`, `CheckRules`, `CheckEach`, `CheckUnique`,
`ErrorsString`, and the JSON `Marshal`/`MarshalJSON` walks. Each method is
proved equal to a prefix-tally or recursive function. Lemmas then relate that function
to a front-to-back reference definition: the list of failures, one
`StructError` per failing field, one `SliceError` per failing or repeated
element, or the leaves of an error tree. Early returns on a `Panic` are
proved to give the first `Panic` in order.

The JSON marshaler appends to a slice through a pointer. It becomes the
class `Json.Marshaler`, and the slice becomes `Json.Entries`, whose `list`
field the methods extend.

Files:

- `wrappers.dfy`: Option and Result.
- `values.dfy`: Go values and the reflection queries the rules use.
- `errors.dfy`: the error tree, `%d` rendering, `fmt` formatting, `Error()`.
- `validation.dfy`: the engine.
- `rule_generic.dfy`, `rule_str.dfy`, `rule_num.dfy`, `rule_slice.dfy`: the rules.
- `json.dfy`, `jsonerr.dfy`: the flatteners.
- `scenarios.dfy`: the library's own test fixtures replayed through the model.

Points where the model settles a question the code answers one way:

- `Rules` (validation.go:35-51) keeps an `Errors` result as one member.
  Only `validate` (validation.go:118-122) and `SliceEach`
  (rule/slice.go:88-91) splice an `Errors` result into the surrounding
  list. `Validation.Step` and `Validation.SpliceStep` model the two
  behaviours.
- The user fixture of fixtures_test.go:102-119 expects the errors of the
  nested Address rule as one `Errors` member of the "Address"
  `StructError`. `validate` splices that `Errors`, so it puts the two
  inner `StructError`s directly in the list. The model follows `validate`.
- `json.go` switches on a `validation.Error` type that `errors.go` does not
  define. The model treats every leaf error as that case: a leaf's text is
  `formatter(message)`. Every other non-tree error, including a `Panic` and
  a `MapError`, falls to the default case and renders with `Error()`.

## Model

| member | source | states |
|---|---|---|
| Errors.JoinConcat | errors.go:28 | `strings.Join` of two non-empty lists is their joins with one separator between them |
| Errors.JoinSplit | errors.go:28 | In a join, the separator sits exactly between neighbours: element i is preceded by the join of the elements before it plus the separator, and followed by the separator plus the join of those after |
| Errors.DigitsRoundTrip | errors.go:50 | The digits `%d` prints for a natural number are non-empty, start with a digit, and read back to the number |
| Errors.DecimalRoundTrip | errors.go:50 | `%d` of any integer reads back to that integer, so distinct slice indices never render alike |
| Errors.FormatText | rule/slice.go:12 | Verb-free text before a template is printed as is, and all operands go to the rest of the template |
| Errors.ErrorsString | errors.go:23-29 | The loop that collects the members' renderings and joins them yields `RenderAll`, the ", "-join of the members' `Error()` |
| Errors.RenderEachConcat | errors.go:25-27 | The renderings of a concatenation are the renderings of each part, in order |
| Errors.RenderEachSlices | errors.go:25-27 | There is one rendering per member, in member order, and each slice of the renderings is the rendering of that slice |
| Errors.RenderEachLength | errors.go:25-27 | There are exactly as many renderings as members |
| Errors.RenderAllSplit | errors.go:23-29 | Member i's `Error()` appears in the collection's rendering between the members before it and those after it, each gap being ", " |
| Errors.StructErrRendering | errors_test.go:19-59 | A StructError, a SliceError and a MapError wrapping the leaves "1" and "2" render as "a: 1, 2", "1: 1, 2" and "k1: 1, 2" |
| Errors.ErrorText | errors.go:66-68 | `Error(text)` is a one-member Errors that renders as exactly `text` |
| Validation.Finish | validation.go:132-137 | An accumulating loop returns nil exactly when it gathered nothing; an aborted loop returns its Panic |
| Validation.RulesTallySticks | validation.go:39-42 | Once a rule panics, the tally stays at that Panic for every longer prefix of the rules |
| Validation.RunRules | validation.go:35-51 | The closure's loop, with its early return on a Panic, computes `Rules(rules)(v)` |
| Validation.FailuresAppend | validation.go:38-45 | Appending a rule appends its failure, if any, to the reference list of failures |
| Validation.RulesTallyNoPanic | validation.go:38-45 | Without a Panic in the first n rules, the tally is exactly their failures, in rule order |
| Validation.RulesCollectsFailures | validation.go:35-51 | Without a Panic, `Rules` returns nil when no rule fails, and otherwise one Errors whose members are the failures in rule order, an Errors result kept as one member |
| Validation.RulesTallyEmpty | validation.go:38-45 | The tally of n rules is empty if and only if each of those rules returns nil |
| Validation.RulesNilIff | validation.go:35-51 | `Rules` returns nil if and only if every rule returns nil |
| Validation.RulesTallyAborts | validation.go:38-42 | The first panicking rule decides the tally of every longer prefix |
| Validation.RulesFirstPanic | validation.go:35-51 | `Rules` returns the first Panic unchanged; later rules are not consulted and earlier failures are dropped |
| Validation.SpliceAppend | validation.go:118-122 | Splicing a list with one more error appends that error's members if it is an Errors, and the error itself otherwise |
| Validation.SpliceStepOf | validation.go:114-124 | A splicing step on a spliced tally is the splice of a plain `Rules` step |
| Validation.SpliceOfRules | validation.go:112-126 | A field's list is what `Rules` would gather, with each Errors result spliced one level; a Panic is the same Panic |
| Validation.FieldName | validation.go:73-80 | With no tag the Go field name is used; with a tag the tag value is used if it is present and non-empty, and the field name otherwise |
| Validation.Struct | validation.go:59-90 | A value whose type is not a pointer, or a pointer to a non-struct type, gives errorArgs. Otherwise, including a typed nil `*T`, Struct keeps the fields and builds the offset-to-name table of all of the pointee type's declared fields in order |
| Validation.TypedNilStruct | validation.go:59-68 | A nil `*T` for a struct type `T` passes both type checks of `Struct` and `validate`, and its pointee type is `T`; with no field rules it validates to nil |
| Validation.NameTableKeys | validation.go:70-82 | The table's keys are exactly the declared fields' offsets |
| Validation.NameTableLookup | validation.go:70-82 | A field that no later field shares an offset with is found at its offset under its external name |
| Validation.FieldNameExamples | validation_test.go:56-72 | The Country field is named "Country" with no tag, "country" with tag "json", and "Country" with the absent tag "xxx" |
| Validation.NameOfResolves | validation.go:140-163 | A pointer to field i gets the field's external name, and so does a Context around it, whose Ctx goes to the rules. The struct pointer itself gets "". A non-pointer gives errorAttr |
| Validation.FieldsTallySticks | validation.go:107-117 | Once a field panics, validation's tally stays at that Panic |
| Validation.SpliceTallySticks | validation.go:115-117 | Once a rule of a field panics, the field's tally stays at that Panic |
| Validation.CheckRules | validation.go:112-126 | The inner loop, with its early return on a Panic, computes the field's spliced tally |
| Validation.ValidateField | validation.go:105-126 | One field's iteration (name resolution, then its rules with their early return on a Panic) yields `CheckField`: the Panic, or the field's name and its failures |
| Validation.Validate | validation.go:92-138 | `validate`'s two nested loops and three early returns compute `Validated`: errorArgs when the type is not a pointer to a struct (read from the type alone, so a typed nil struct pointer passes), else the first Panic, else nil or the field errors |
| Validation.FieldErrorsAppend | validation.go:128-130 | Appending a field appends its StructError, when it has errors, to the reference list |
| Validation.FieldsTallyNoAbort | validation.go:103-131 | Without a Panic in the first n fields, the tally is exactly the reference list of their StructErrors |
| Validation.ValidatedReportsFields | validation.go:92-138 | Without a Panic, validate returns nil when no field fails, and otherwise one Errors with one StructError per failing field, in field order |
| Validation.FieldErrorsShape | validation.go:128-130 | Every reported member is a StructError with a non-empty list, and there are at most as many as fields |
| Validation.FieldsTallyEmpty | validation.go:103-131 | The tally is empty if and only if each field resolves and gathers nothing |
| Validation.ValidatedNilIff | validation.go:92-138 | validate returns nil if and only if its argument is a struct pointer and every field resolves and passes all its rules |
| Validation.FieldsTallyAborts | validation.go:104-117 | The first panicking field decides the tally of every longer prefix |
| Validation.ValidatedFirstPanic | validation.go:92-138 | The first field whose accessor yields no pointer, or whose rule panics, makes validate return that Panic, with no partial result |
| Validation.SpliceAbortIsPanic | validation.go:115-117 | A field's tally only ever aborts with a Panic |
| GenericRules.UnexpectedType | rule/generic.go:11-15 | The type error is always a Panic whose message is "unexpected type: " followed by the value's type |
| GenericRules.NotNil | rule/generic.go:18-42 | A non-pointer, or a pointer to a non-nilable kind, gives the type Panic. For a pointer to a nilable kind, the message is returned exactly when the pointee is nil, and nil exactly when it is not |
| GenericRules.NotNilOutcomes | rule/generic.go:18-42 | NotNil returns nil, its message or a Panic, and it panics exactly when the argument is not a pointer to a nilable kind |
| GenericRules.NotNilExamples | rule/generic_test.go:15-29 | An int and a pointer to an int panic, a pointer to a nil interface fails with the message, and a pointer to an empty slice passes |
| StrRules.StrRule | rule/str.go:35-43 | A non-`*string` gives the type Panic; a `*string` gives fn of the string |
| StrRules.FromFn | rule/str.go:45-54 | Every rule the factory builds panics on a non-`*string`. Otherwise it passes exactly when the predicate holds, and fails with exactly the message otherwise |
| StrRules.StrLen | rule/str.go:58-66 | A string passes exactly when min <= len <= max, in bytes with both bounds inclusive; otherwise the message is formatted with min and max |
| StrRules.StrRequired | rule/str.go:69-76 | Passes exactly on a non-empty string and fails with the message otherwise |
| StrRules.StrMinLen | rule/str.go:81-89 | Passes exactly when min <= len; otherwise the message is formatted with min |
| StrRules.StrMaxLen | rule/str.go:94-103 | Passes exactly when len <= max; otherwise the message is formatted with max |
| StrRules.StrMatch | rule/str.go:107-114 | Passes exactly when the pattern matches the string |
| StrRules.StrMatchIsFromFn | rule/str.go:107-114 | StrMatch is the fromfn rule of its matcher |
| StrRules.StrLenIsMinAndMax | rule/str.go:58-103 | StrLen(min, max) passes exactly what both StrMinLen(min) and StrMaxLen(max) pass |
| StrRules.StrRequiredIsMinLenOne | rule/str.go:69-89 | StrRequired passes exactly what StrMinLen(1) passes |
| StrRules.StrLenExamples | rule/str_test.go:29-57 | For StrLen(2, 8): an int panics; "" and "123456789" fail with the formatted message; "12" and "12345678" pass |
| NumRules.IntRule | rule/num.go:16-25 | A non-`*int` gives the type Panic; a `*int` gives fn of the integer |
| NumRules.UintRule | rule/num.go:27-36 | A non-`*uint` gives the type Panic; a `*uint` gives fn of the integer |
| NumRules.Min | rule/num.go:63-108 | For an int or uint bound, an argument of the matching pointer type passes exactly when bound <= value, and otherwise fails with the message formatted with the bound. Other arguments give the type Panic. A float32, float64 or time.Time bound hands a `*float32`/`*float64` (resp. `*time.Time`) argument to its comparison and gives any other argument the type Panic. Any bound type other than int, uint, float32, float64 and time.Time makes every call panic with the bound's type |
| NumRules.ComparedRule | rule/num.go:38-59 | float64rule accepts exactly `*float32` and `*float64`, timerule exactly `*time.Time`; an accepted argument goes to the comparison, any other gets the type Panic |
| NumRules.Max | rule/num.go:112-157 | The same as Min, with value <= bound |
| NumRules.Between | rule/num.go:160-214 | Bounds of different types make every call panic with "between parameters should have same type". For int or uint bounds, a matching argument passes exactly when a <= value <= b, and otherwise gets the message formatted with a and b. Other arguments give the type Panic. Two float or two time.Time bounds hand an argument of the accepted pointer type to their comparison, and give any other the type Panic. Any bound type other than int, uint, float32, float64 and time.Time gives the type Panic of the argument |
| NumRules.BetweenIsMinAndMax | rule/num.go:63-214 | With two int or two uint bounds, Between passes exactly what both Min(a) and Max(b) pass, and all three panic on the same arguments |
| NumRules.NumOutcomes | rule/num.go:63-214 | Each of Min, Max and Between returns nil, a Panic, or its one formatted message |
| NumRules.SizedIntPanics | rule/num.go:63-106 | A sized integer bound (`int64`) or a `*int64` argument under an `int` bound is an unexpected type and gives its Panic |
| NumRules.FloatArguments | rule/num.go:38-49 | A float64 or float32 bound compares a `*float32` or `*float64` argument and gives a `*int` the type Panic |
| NumRules.TimeArguments | rule/num.go:51-59 | A time.Time bound gives a `*float64` the type Panic and compares a `*time.Time` |
| NumRules.MinExamples | rule/num_test.go:12-35 | Min(10) fails 9 with the formatted message and passes 10 and 11. It panics on a non-pointer, a `*string` and a `*uint` |
| SliceRules.SliceRule | rule/slice.go:18-32 | A non-pointer, or a pointer to a non-slice, gives the type Panic; a slice pointer gives fn of it |
| SliceRules.SliceLen | rule/slice.go:36-45 | Passes exactly when min <= len <= max; otherwise the message is formatted with min and max |
| SliceRules.SliceMinLen | rule/slice.go:49-58 | Passes exactly when min <= len; otherwise the message is formatted with min |
| SliceRules.SliceMaxLen | rule/slice.go:62-71 | Passes exactly when len <= max; otherwise the message is formatted with max |
| SliceRules.SliceLenIsMinAndMax | rule/slice.go:36-71 | SliceLen(min, max) passes exactly what both SliceMinLen(min) and SliceMaxLen(max) pass |
| SliceRules.EachTallySticks | rule/slice.go:84-87 | Once an element's rule panics, the tally stays at that Panic |
| SliceRules.CheckEach | rule/slice.go:75-110 | The closure's nested loops, with their early return on a Panic, compute `SliceEach(iter, rules)(v)` |
| SliceRules.EachTallyEmpty | rule/slice.go:80-102 | The tally is empty if and only if every element gathers nothing |
| SliceRules.SliceEachNilIff | rule/slice.go:75-110 | SliceEach returns nil if and only if its argument is a slice pointer and every element passes every rule; an empty slice passes |
| SliceRules.EachTallyAborts | rule/slice.go:80-102 | The first element that panics decides the tally |
| SliceRules.SliceEachFirstPanic | rule/slice.go:75-110 | A Panic from a rule on an element is SliceEach's result when no earlier element panics |
| SliceRules.AppendAbove | rule/slice.go:96-101 | Appending a SliceError above all indices keeps the indices ascending and adds its index to those listed |
| SliceRules.EachReportStep | rule/slice.go:81-101 | Adding the next element's SliceError, when it has errors, keeps the report correct |
| SliceRules.EachTallyNoAbort | rule/slice.go:80-102 | Without a Panic, the tally lists exactly the failing elements, in ascending index order, each with its spliced list |
| SliceRules.SliceEachReports | rule/slice.go:75-110 | Without a Panic, SliceEach reports one SliceError per failing element and nothing for a passing one. Indices are strictly ascending, and each list is what the element's rules gather |
| SliceRules.UniqueScanSticks | rule/slice.go:121-124 | Once an element is not a pointer, the scan's tally stays at that Panic |
| SliceRules.CheckUnique | rule/slice.go:114-143 | The closure's loop over a set of seen values, with its early return, computes `SliceUnique(iter, msg)(v)` |
| SliceRules.UniqueScanSeen | rule/slice.go:120-135 | When every element is a pointer, the seen set after n elements is exactly the set of their pointees |
| SliceRules.RepeatsIffSeen | rule/slice.go:126-134 | An element repeats an earlier one exactly when its value is in the set of earlier values |
| SliceRules.UniqueReportStep | rule/slice.go:126-134 | Adding the next element keeps the report correct: flagged if and only if it repeats |
| SliceRules.UniqueScanReport | rule/slice.go:120-135 | When every element is a pointer, the tally flags exactly the repeated elements, each once, with the message, in ascending order |
| SliceRules.SliceUniqueReports | rule/slice.go:114-143 | SliceUnique flags exactly the elements whose value an earlier element has, in order, and returns nil if and only if there is no repeat |
| SliceRules.UniqueScanAborts | rule/slice.go:120-124 | The first element that is not a pointer decides the tally |
| SliceRules.SliceUniqueNotPointer | rule/slice.go:121-124 | An element that is not a pointer gives the Panic "expected pointer at index " followed by its index |
| Json.DefaultFormatter | json/json.go:19-21 | The text of a leaf is its message, character for character |
| Json.JoinStruct | json/json.go:32-34 | A field path is the base, a '.', then the field name |
| Json.JoinSlice | json/json.go:36-38 | An element path is the base, '[', the index in decimal, then ']', and the index reads back from between the brackets |
| Json.DecimalNonEmpty | json/json.go:37 | The decimal text of an index is never empty |
| Json.FlattenAllConcat | json/json.go:85-88 | The entries of a concatenated list are the entries of each part, in order |
| Json.Entries.constructor | json/json.go:74 | The entry list starts empty |
| Json.Marshaler.constructor | json/json.go:56-63 | New keeps the errors, the formatter and the joiner |
| Json.Marshaler.Marshal | json/json.go:83-109 | marshal appends exactly the entries of the error at the path to the caller's list, and changes nothing else |
| Json.Marshaler.MarshalEach | json/json.go:86-88 | The loop over a node's members appends their entries in order |
| Json.Marshaler.MarshalJSON | json/json.go:72-81 | The serialised list is the entries of the errors in order, starting from the empty path |
| Json.MessagesConcat | json/json.go:105 | The messages of concatenated entries are concatenated |
| Json.FlattenLeaves | json/json.go:83-109 | With the default formatter, the walk yields one entry per leaf, depth first and left to right, carrying the leaf's text |
| Json.FlattenAllLeaves | json/json.go:72-81 | The same for a list of errors |
| Json.FlattenPathsExtend | json/json.go:83-109 | Under the default joiner, every entry's path extends the path it was reached from |
| Json.FlattenAllPathsExtend | json/json.go:76-78 | The same for a list of errors |
| Json.FieldPathsExample | json/json_test.go:57-78 | Two field errors give the entries ".username" and ".password" with their messages |
| Json.TwoFieldPaths | json/json.go:83-109 | Two field errors with one leaf each, under any path, give the two entries `path.f1` and `path.f2` in order |
| Json.ElementOfField | json/json.go:90-102 | A field error wrapping an element error flattens to the element's errors under `path.field[i]` |
| Json.FirstAddressPath | json/json.go:32-38 | The path of the first element of field "addresses" from the root is ".addresses[0]" |
| Json.NestedPathsExample | json/json_test.go:79-169 | The nested first-address errors give the entries ".addresses[0].zipcode" and ".addresses[0].country" with their messages |
| JsonErr.FlattenAllConcat | jsonerr/jsonerr.go:32-35 | The entries of a concatenated list are the entries of each part, in order |
| JsonErr.Marshal | jsonerr/jsonerr.go:30-53 | marshal appends exactly the entries of the error at the path and changes nothing else |
| JsonErr.MarshalEach | jsonerr/jsonerr.go:33-35 | The loop over a node's members appends their entries in order |
| JsonErr.MarshalJSON | jsonerr/jsonerr.go:14-23 | The serialised list is the entries of the errors in order, starting from the empty path |
| JsonErr.SameWalk | jsonerr/jsonerr.go:30-53 | jsonerr's walk is json's walk with the default formatter and "/"-separated paths |
| JsonErr.SameWalkAll | jsonerr/jsonerr.go:14-23 | The same for a list of errors |
| JsonErr.Leaves | jsonerr/jsonerr.go:30-53 | One entry per leaf, depth first, carrying the leaf's `Error()` text, at a path that extends the base |
| JsonErr.PathsExtend | jsonerr/jsonerr.go:36-49 | Every entry's path extends the path it was reached from |
| JsonErr.PathsExtendAll | jsonerr/jsonerr.go:18-20 | The same for a list of errors |
| Scenarios.AddressNames | validation_test.go:56-72 | The Address table maps offsets 0, 16 and 32 to Country, ZipCode and City with no tag, and to country, zipCode and city with tag "json" |
| Scenarios.EmptyCountry | fixtures_test.go:38-45 | An empty Country fails both of its rules, in order |
| Scenarios.EmptyZipCode | fixtures_test.go:46-51 | An empty ZipCode fails only the required rule |
| Scenarios.EmptyAddress | fixtures_test.go:38-52 | Validating `&Address{}` gives the two StructErrors of the fixture, in field order |
| Scenarios.NestedAddress | fixtures_test.go:306-311 | The User fixture's Address field, whose field rule list is `[]validation.Rule{addressRule}`, reports the empty address's two StructErrors; `validate` splices them, while `Rules` alone keeps them as one nested Errors member |
| Scenarios.ScanPointer | rule/slice.go:126-134 | One step of SliceUnique over an element: flagged if its value was seen, and the value is added to the seen set |
| Scenarios.DistinctPrefix | rule/fixtures_test.go:152-164 | The first three distinct users raise nothing |
| Scenarios.RepeatAtThree | rule/fixtures_test.go:165-168 | The fourth user, a repeat of the second, is flagged at index 3 |
| Scenarios.DuplicatedUsers | rule/fixtures_test.go:152-188 | The six users, with repeats at indices 3 and 5, give exactly the fixture's two SliceErrors |

## Left out

- The comparisons in the `float32`/`float64` and `time.Time` branches of `Min`, `Max` and `Between` (rule/num.go:81-104, 130-153, 191-210) need floating point and clocks, and `Values.OtherVal` carries no payload. The model keeps those branches' type dispatch and takes the comparison's outcome for an accepted argument as the parameter `compare`, together with the message it formats.
- `int` and `uint` are modelled as 64-bit values. rule/num.go has no branch for the sized integer types (`int8`..`int64`, `uint8`..`uint64`): a bound or argument of those types reaches `unexpectedType`, and the model gives the same Panic through `OtherVal` (`NumRules.SizedIntPanics`).
- The govalidator predicates behind `StrEmail`, `StrIPv4` and the other `fromfn` rules are foreign code. `FromFn` takes the predicate as a parameter.
- `StrMatch` takes the regular-expression match as a parameter, because `regexp` is foreign code.
- `Errors.Format` models `fmt.Sprintf` only for `%d`, `%v` on integers, `%%`, and a missing operand. Extra operands (`%!(EXTRA …)`) and the other verbs are not modelled.
- Go run-time crashes are not modelled: a nil-pointer dereference in a rule, an unhashable map key in `SliceUnique`, and a type assertion failing inside a test helper. A nil pointer is opaque, except that a typed nil struct pointer keeps its struct type.
- `reflect.TypeOf` identity is approximated by kind plus type name (`NumRules.SameType`). The `%v` text of a type is the coarse name that `Values.TypeName` gives.
- `Values.Value` carries the payload of a `Context.Ctx` as an ordinary value. Its Go type is whatever the caller puts there.
- `Errors.Err.MapErr` holds its key as the text `%v` prints. `Panic` holds the text of its wrapped error.
- The byte encoding done by `json.Marshal` and the `omitempty` tag are not modelled. `MarshalJSON` returns the list of entries it would encode.
- `Json.Formatter` receives only the message of a leaf, because the `validation.Error` type it is declared over is not part of this model. With the default formatter this makes no difference.
- `Errorf` (errors.go:70-73) is outside the modelled core: no rule of generic, str, num or slice calls it.
- `rule.In` and the other rule files outside generic, str, num and slice are not part of this model.
- The `Marshaler.Error` function restates `Errors.Error()` and carries no contract of its own.
- Pointers to values the model does not describe (`RefVal`) have address 0, and nil pointers to anything but a struct are `RefVal` values too. Field-name resolution only uses addresses of `PtrVal` pointers. `SliceUnique` keys a `RefVal` pointer, or a pointer to an `OtherVal`, by its type alone, so two such pointers of one type to different values are flagged as repeats.
- The test helpers `stringRequired`, `startsUpperCase` and `zipCode` are modelled for ASCII only (fixtures_test.go:172-217). Unicode classes are not modelled.
