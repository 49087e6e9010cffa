# environ in Dafny

A model of the Go library `environ`. It has two operations:

- `Inject` fills the fields of a struct from environment variables named in the fields' `environ` struct tags.
- `UseParser` registers a conversion function ("parser") for a non-string field type.

Go's reflection is replaced by plain data:

- a type is its name plus its `reflect.Kind`, Go's `uint` enumeration of kinds with its constants in Go's order (`Reflect`). Two distinct Go types that print the same name are not told apart;
- a struct is a `Record` object whose `values` array holds the fields' current values;
- a parser is a `FuncValue`, which holds its parameter and result types, whether it is a typed nil function, and its behaviour on a string;
- a non-pointer argument of `Inject` and a non-function argument of `UseParser` carry their dynamic type, restricted to the kinds such a value can have (`NonPointerType`, `NonFuncType`).

Modules:

- `GoStrings`: `strings.Split` with a one-character separator, `strings.Join`, `strings.TrimSpace` and `unicode.IsSpace`, with their round-trip and trimming lemmas.
- `Parsers` (parser.go):
  - the panic messages,
  - the guard chain of `UseParser`, as the function `Validate`,
  - the `Registry` class, which holds the package-level `parsers` map. Its method `UseParser` applies the same Go early returns imperatively.
  - A rejected parser leaves the map unchanged. An accepted one is stored under its first result type.
- `Injector` (inject.go):
  - Each field's processing is specified as a pure function: `ParseTag`, then `Resolve` (environment, else default, else missing), then `Convert` (string field, or registered parser).
  - `Outcomes` lists these per-field results.
  - `Inject` is an imperative loop that writes into `Record.values`. It is proved to stop at the first failing field, to report that field's error, and to leave every field from that one on untouched.
- `Scenarios`: the cases of inject_test.go and parser_test.go, stated for every choice of names and values that meet the conditions the tests' literals meet.

Errors are values, not Go `error`s or panics:

- `UseParser`'s panics become a returned `RegisterError`.
- `Inject`'s errors become an `InjectError`.
- A panic from `reflect.Value.Call` becomes `CallPanic`. `UseParser` checks only the kind of a parser's parameter and never whether the function value is nil, so it accepts a parser that takes a named string type and a typed nil function. `Inject` panics when it calls such a parser (`Scenarios.UncallableParserAccepted`).
- A panic from `reflect.Value.Set` becomes `SetPanic`. Go panics there when the field is unexported, or when it has string kind but a named type other than `string`.

The environment is a map, read through `Injector.LookupEnv`. A name that is empty or contains `=` is never set (`EnvKey`). Go's `os.LookupEnv` reports the empty name as absent on Unix. No Go environment holds a key with `=`: `syscall.Setenv` refuses one, and the table is built by cutting each entry at its first `=`.

An empty tag (`environ:""`) is not skipped as a tag with zero tokens, although the guard reads that way. `strings.Split` always returns at least one token, so the guard `len(tokens) < 1` in inject.go:34 never holds. An empty tag therefore looks up the variable named `""`, which is never set, so the field fails as missing unless the tag gives a default (`ParseTagNameOnly`, `ResolveNameOnly`, `SplitNonEmpty`). The model follows the code.

## Model

| member | source | states |
|---|---|---|
| GoStrings.Count | inject.go:32 | number of separators, at most the length, zero exactly when the separator does not occur |
| GoStrings.Split | inject.go:32 | one more token than separators; no token contains the separator |
| GoStrings.SplitNonEmpty | inject.go:34 | splitting never yields zero tokens, so the `len(tokens) < 1` guard is dead |
| GoStrings.JoinCons | inject.go:32 | joining a token in front of a non-empty list puts one separator between it and the rest |
| GoStrings.JoinPrepend | inject.go:32 | a code point added to the first token comes first in the join |
| GoStrings.SplitThenJoin | inject.go:32 | joining the tokens with the separator gives back the tag |
| GoStrings.SplitWithoutSep | inject.go:32 | a separator-free string splits into itself alone |
| GoStrings.SplitAtFirstSep | inject.go:32 | the text before the first separator is the first token, and the rest splits on its own |
| GoStrings.JoinThenSplit | inject.go:32 | splitting a join of separator-free tokens gives back the tokens |
| GoStrings.LeadingSpace | inject.go:38 | length of the white-space prefix: all of it is space and the next code point is not |
| GoStrings.TrimRight | inject.go:38 | a prefix of the input with only white space cut off after it, not ending in white space |
| GoStrings.TrimSpace | inject.go:38 | the slice right after the leading white space, neither starting nor ending with white space, followed only by white space |
| GoStrings.TrimSpaceKeepsTrimmed | inject.go:47 | a string not starting or ending with white space is unchanged by trimming |
| GoStrings.TrimSpaceIdempotent | inject.go:38 | trimming twice equals trimming once |
| GoStrings.TrimSpaceAllSpace | inject.go:47 | a default made only of white space trims to the empty string |
| GoStrings.IsSpace | inject.go:38 | the reference definition of `unicode.IsSpace`, which Go's `strings.TrimSpace` strips: `\t` to `\r`, space, U+0085, U+00A0, U+1680, U+2000 to U+200A, U+2028, U+2029, U+202F, U+205F and U+3000; `LeadingSpace`, `TrimRight` and `TrimSpace` are stated in its terms |
| Parsers.Validate | parser.go:27-52 | the first failing guard decides the error: nil, non-function (with its type), bad argument, bad results; none exactly for a function with one parameter of string kind and results `T` or `(T, error)`, `T` not `error` |
| Parsers.StoreKeepsConsistent | parser.go:54 | storing a well-shaped parser under its first result type keeps every entry well-shaped and keyed by its result type |
| Parsers.Registry.constructor | parser.go:20 | the registry starts empty and consistent |
| Parsers.Registry.Reset | inject_test.go:29 | the tests' reset empties the registry |
| Parsers.Registry.UseParser | parser.go:27-55 | result is `Validate`'s verdict; a rejected parser leaves the map unchanged, an accepted one is stored under `Out(0)`, replacing any earlier one |
| Parsers.Message | parser.go:8-17 | the reference definition of the panic texts: the three exported constants and, for a non-function, the formatted message of parser.go:35 naming the type; `TestNilParser`, `TestInvalidParserFunctionArgument` and `TestInvalidParserFunctionReturnType` state them |
| Parsers.LastRegistrationWins | parser.go:54 | two accepted `UseParser` calls for the same result type: both succeed, the later parser is kept, every other entry is the one from before both |
| Injector.ParseTagSkips | inject.go:32-36 | a tag is skipped exactly when it has two or more commas (more than two tokens) |
| Injector.ParseTagTrims | inject.go:38-47 | variable name and default never begin or end with white space |
| Injector.ParseTagNameOnly | inject.go:32-38 | a comma-free tag, including the empty one, names its trimmed self with no default |
| Injector.ParseTagWithDefault | inject.go:32-47 | a one-comma tag names the trimmed text before the comma and defaults to the trimmed text after it |
| Injector.ParseTag | inject.go:32-47 | the reference definition of tag parsing (split on commas, skip above two tokens, trim name and default); its properties are `ParseTagSkips`, `ParseTagTrims`, `ParseTagNameOnly` and `ParseTagWithDefault` |
| Injector.LookupEnv | inject.go:41 | the reference definition of `os.LookupEnv` on the map `env`: a name that is empty or contains `=` is never set; `ResolveNameOnly` and `ResolveWithDefault` state it |
| Injector.Resolve | inject.go:38-48 | the reference definition of where a field's string comes from (the set variable, else the default, else missing); its properties are `ResolveNameOnly`, `ResolveWithDefault` and `NoParserAfterResolution` |
| Injector.ResolveNameOnly | inject.go:41-45 | a comma-free tag yields the variable's value verbatim if its trimmed name is an environment key and set, otherwise a missing-variable failure for that name |
| Injector.ResolveWithDefault | inject.go:41-48 | a tag with a default never misses: the value of the set variable wins over the trimmed default |
| Injector.UntaggedFieldSkipped | inject.go:27-30 | a field without an `environ` key is skipped |
| Injector.ManyTokensSkipped | inject.go:32-36 | a field whose tag has two or more commas is skipped without error |
| Injector.StringFieldIgnoresRegistry | inject.go:50-53 | a string-kind field's outcome does not depend on the registered parsers |
| Injector.StringFieldGetsString | inject.go:50-53 | an exported `string` field receives the resolved string exactly |
| Injector.NoParserAfterResolution | inject.go:41-58 | "no parser" happens exactly for a resolved non-string field whose type has no parser, and names that type; a missing variable is reported first |
| Injector.ParserDecides | inject.go:55-66 | for a resolved non-string field with a registered parser: it is written exactly when the parser is callable with a `string` (not nil, parameter `string` itself), reports no error and the field is exported, and then receives the parser's first result; an uncallable parser panics in `Call`, a parser error fails with the variable name |
| Injector.AssignedByMatchingParser | inject.go:55-66 | on a consistent registry, a non-string field is written only by a non-nil parser taking `string` whose first result type is the field's type, and only when the field is exported |
| Injector.Convert | inject.go:50-66 | the reference definition of turning the resolved string into the field's new value or an error; its properties are `StringFieldGetsString`, `StringFieldIgnoresRegistry`, `NoParserAfterResolution`, `ParserDecides` and `AssignedByMatchingParser` |
| Injector.FieldOutcome | inject.go:27-66 | the reference definition of one iteration of Inject's loop; `InjectField` is proved equal to it, and `UntaggedFieldSkipped`, `ManyTokensSkipped`, `NoParserAfterResolution` and `ParserDecides` state its cases |
| Injector.Outcomes | inject.go:24-67 | one outcome per declared field |
| Injector.OutcomesAt | inject.go:24-67 | the outcome at index `j` is the outcome of field `j` alone |
| Injector.FirstFailure | inject.go:24-69 | no failure before the returned index; a failure at it unless it is the end |
| Injector.FirstFailureIs | inject.go:24-69 | the first failure is the least failing index |
| Injector.AllStringFieldsSet | inject.go:24-69 | when every tagged field is an exported `string` whose tag has at most one comma and names a set variable that is an environment key, nothing fails and each receives its variable's value, default or not |
| Injector.InjectField | inject.go:27-66 | on a consistent registry, the loop body on one field, with Go's early exits and the `Call` panic, produces exactly that field's specified outcome |
| Injector.Inject | inject.go:14-70 | on a consistent registry, a non-pointer is refused with its type; otherwise it fails exactly when some field fails, with the first failing field's error, fields before it hold their outcomes and the rest are untouched |
| Injector.Record.constructor | inject_test.go:39 | a declared struct starts with every field at its zero value |
| Scenarios.RegisterOne | inject_test.go:146 | a fresh registry after one accepted `func(string) (T, error)` holds exactly that parser under `T` |
| Scenarios.InjectFresh | inject_test.go:39-41 | injecting into a zero struct: no error exactly when no field fails, otherwise the first failure's error; fields before it hold their outcomes, the rest stay zero |
| Scenarios.TestOk | inject_test.go:25-48 | four string fields: no error, three variables' values and the default |
| Scenarios.RegisterNumberParsers | inject_test.go:72-73 | registering an int and a float64 parser stores both under their types |
| Scenarios.TestOkWithParser | inject_test.go:50-84 | no error; the int and float64 fields hold the parsers' results, the strings their values and the default |
| Scenarios.TestPassStructValue | inject_test.go:86-94 | a struct passed by value is refused with its type |
| Scenarios.TestNoDefaultVar | inject_test.go:96-110 | an unset variable without default fails with its name and the field stays zero |
| Scenarios.TestNoParserFound | inject_test.go:112-128 | fails with "no parser" for `int`; Host is already written, Port stays zero |
| Scenarios.TestParserError | inject_test.go:130-152 | fails with the parser's error wrapped with the variable name; Port stays zero |
| Scenarios.TestRandomTags | inject_test.go:154-177 | a three-token tag and an untagged field stay zero; no error |
| Scenarios.MissingVariableBeforeNoParser | inject.go:41-58 | an unset variable on an int field with no parser is reported as missing, not as "no parser" |
| Scenarios.DefaultConverted | inject.go:41-66 | the default of an unset variable is passed to the registered parser |
| Scenarios.UncallableParserAccepted | inject.go:55-66 | a well-shaped parser that is a typed nil or takes a non-`string` parameter is accepted and keeps the registry consistent, yet any resolved field of its type fails with the `Call` panic |
| Scenarios.TestParserOK | parser_test.go:10-54 | `func(string) (int, error)` then `func(string) int` are both accepted; the later one is what remains under `int` |
| Scenarios.TestNilParser | parser_test.go:56-73 | `nil` is refused with the `NilParser` message |
| Scenarios.TestInvalidParserArgument | parser_test.go:75-93 | a non-function is refused, naming its type |
| Scenarios.TestInvalidParserFunctionArgument | parser_test.go:95-116 | a function taking an `int` is refused with the `InvalidArgument` message |
| Scenarios.TestInvalidParserFunctionReturnType | parser_test.go:118-233 | all five bad result lists are refused with the `InvalidReturnType` message |

## Left out

- Go reflection is not modelled as a mechanism: types, kinds, struct fields and function values are given as data (`Type`, `FieldDecl`, `FuncValue`).
- Struct-tag syntax is not modelled: the backquoted tag string and `f.Tag.Lookup` are replaced by `FieldDecl.tag`, the value `Lookup` returns.
- `os.LookupEnv` is replaced by the map parameter `env` and `LookupEnv`, which treats the empty name as unset as Go does on Unix; on other platforms Go's behaviour for the empty name is not modelled.
- A parser that panics or never returns is not modelled: `FuncValue.call` is a total function, so a panic escaping `Inject` from inside the parser at inject.go:60 cannot be represented. The process environment, `setupEnv` and `cleanEnv` are not modelled.
- The text of `Inject`'s error messages (`fmt.Errorf`) is not modelled. The model returns which error occurred and its arguments. The `%w` wrapping is kept as the cause string of `ParseFailed`.
- `UseParser`'s panics are returned as values. The formatted panic text is given by `Parsers.Message`.
- The converters themselves (`strconv.Atoi`, `strconv.ParseFloat`) are not modelled: a parser's behaviour is its `call` function, and the scenarios take it as a parameter.
- Which Go values a parser returns is left abstract in `Value`. Floating point is not modelled.
- The registry is a plain map per `Registry` object. Concurrent access to the package-level map is not modelled; the source does not lock it either.
- `Inject(nil)` is left out: `reflect.TypeOf(nil)` is a nil `reflect.Type`, and the method call `hPtr.Kind()` at inject.go:17 then panics in the library's own code.
- A pointer to a non-struct and a nil pointer to a struct are left out: in Go they panic inside `reflect` (`NumField`, `Elem().Type()`) before any field is read.
- `reflect.Value.Set` with a parser result whose dynamic type differs from the field type cannot happen: the registry is keyed by the parser's first result type, `Registry.Valid` keeps `Consistent`, and `Injector.AssignedByMatchingParser` shows that a written non-string field always gets the result of a parser whose first result type is the field's type. The parser's `call` is trusted to return a value of that type.
- Strings are sequences of code points: byte-level UTF-8 handling by `strings.TrimSpace` and `strings.Split` is not modelled.
- example/main.go (a usage example) is not part of this model.
