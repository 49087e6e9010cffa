/**
  The data that the library obtains from Go's `reflect` package, written out
  as plain values: a type is its identity (its printed name) together with its
  kind, and a field value is one of a few shapes.
*/
module Reflect {

  /** `reflect.Kind`: Go's `uint` enumeration of type kinds, with its constants in Go's order. */
  newtype Kind = k: int | 0 <= k < 27

  const Invalid: Kind := 0
  const Bool: Kind := 1
  const Int: Kind := 2
  const Int8: Kind := 3
  const Int16: Kind := 4
  const Int32: Kind := 5
  const Int64: Kind := 6
  const Uint: Kind := 7
  const Uint8: Kind := 8
  const Uint16: Kind := 9
  const Uint32: Kind := 10
  const Uint64: Kind := 11
  const Uintptr: Kind := 12
  const Float32: Kind := 13
  const Float64: Kind := 14
  const Complex64: Kind := 15
  const Complex128: Kind := 16
  const Array: Kind := 17
  const Chan: Kind := 18
  const Func: Kind := 19
  const Interface: Kind := 20
  const Map: Kind := 21
  const Pointer: Kind := 22
  const Slice: Kind := 23
  const String: Kind := 24
  const Struct: Kind := 25
  const UnsafePointer: Kind := 26

  /**
    A Go type, identified here by what `%v` prints for it (`int`, `main.Mode`,
    `error`) together with its kind. This is a modelling assumption: Go can
    have two distinct types that print alike (two local types both named
    `testConfig` in different functions), and the model does not tell them apart.
  */
  datatype Type = Type(name: string, kind: Kind)

  /** The predeclared `string` type. */
  const StringType := Type("string", String)

  /** The predeclared `error` interface type (`errorType` in parser.go). */
  const ErrorType := Type("error", Interface)

  /**
    The value held by a struct field. `Zero` is the zero value of the field's
    type, which every field of a fresh struct holds; `Text` is a string;
    `Number`, `Flag` and `Opaque` stand for whatever a registered parser
    produces, which the library stores without inspecting.
  */
  datatype Value = Zero | Text(s: string) | Number(i: int) | Flag(b: bool) | Opaque(repr: string)
}
