/**
  parser.go: the registry of parsers, one per result type, and `UseParser`,
  which checks a candidate parser's signature before storing it. Go panics on
  a malformed parser; here the same conditions are returned as a
  `RegisterError`, and the registry is left as it was.
*/
module Parsers {
  import opened Wrappers
  import opened Reflect

  /**
    What calling a parser yields: `result[0]`, and `result[1]` when the function
    has two results (`None` stands for a nil error). For a one-result function
    `err` is never looked at.
  */
  datatype Returned = Returned(value: Value, err: Option<string>)

  /**
    A Go function value: its signature, whether it is a typed nil function
    (such as `(func(string) int)(nil)`, which has a function type but cannot be
    called), and its behaviour on a string argument when it is not nil.
  */
  datatype FuncValue = FuncValue(params: seq<Type>, results: seq<Type>, isNil: bool, call: string -> Returned)

  /** The dynamic type of a non-function value: any type whose kind is not `Func`. */
  type NonFuncType = t: Type | t.kind != Func witness Type("string", String)

  /**
    What can be passed to `UseParser`: the untyped `nil` interface, some other
    non-function value of dynamic type `t`, or a function value (possibly a
    typed nil function, which `parser == nil` does not catch).
  */
  datatype Parser = Nil | NonFunc(t: NonFuncType) | Function(f: FuncValue)

  /** The reasons `UseParser` refuses a parser (the values it panics with). */
  datatype RegisterError = NilParser | NotAParser(t: Type) | InvalidArgument | InvalidReturnType

  /** The panic texts: the three exported constants of parser.go and the formatted non-function message. */
  const NilParserMessage := "cannot pass nil as arg to UseParser"
  const InvalidArgumentMessage := "parser must take a single string as an argument"
  const InvalidReturnTypeMessage := "parser return type must be T or (T, error)"

  function Message(e: RegisterError): string
  {
    match e
    case NilParser => NilParserMessage
    case NotAParser(t) => "cannot use \"" + t.name + "\" as a parser"
    case InvalidArgument => InvalidArgumentMessage
    case InvalidReturnType => InvalidReturnTypeMessage
  }

  /** The shape rules, one per guard of `UseParser`. */
  predicate TakesOneString(f: FuncValue)
  {
    |f.params| == 1 && f.params[0].kind == String
  }

  predicate ReturnsOneOrTwo(f: FuncValue)
  {
    1 <= |f.results| <= 2
  }

  predicate SecondResultIsError(f: FuncValue)
  {
    |f.results| == 2 ==> f.results[1] == ErrorType
  }

  predicate FirstResultIsNotError(f: FuncValue)
  {
    |f.results| >= 1 ==> f.results[0] != ErrorType
  }

  /** `func(string) T` or `func(string) (T, error)` with `T` other than `error`. */
  predicate WellShaped(f: FuncValue)
  {
    TakesOneString(f) && ReturnsOneOrTwo(f) && SecondResultIsError(f) && FirstResultIsNotError(f)
  }

  /**
    The guard chain of `UseParser`, in source order: the first violated guard
    decides the error, and a parser passes exactly when it is a well-shaped
    function.
  */
  function Validate(p: Parser): (r: Option<RegisterError>)
    ensures r.None? <==> p.Function? && WellShaped(p.f)
    ensures r == Some(NilParser) <==> p.Nil?
    ensures (r.Some? && r.value.NotAParser?) <==> p.NonFunc?
    ensures p.NonFunc? ==> r == Some(NotAParser(p.t))
    ensures r == Some(InvalidArgument) <==> p.Function? && !TakesOneString(p.f)
    ensures r == Some(InvalidReturnType) <==> p.Function? && TakesOneString(p.f) && !WellShaped(p.f)
  {
    match p
    case Nil => Some(NilParser)
    case NonFunc(t) => Some(NotAParser(t))
    case Function(f) =>
      if |f.params| != 1 || f.params[0].kind != String then Some(InvalidArgument)
      else if |f.results| < 1 || |f.results| > 2 then Some(InvalidReturnType)
      else if |f.results| == 2 && f.results[1] != ErrorType then Some(InvalidReturnType)
      else if f.results[0] == ErrorType then Some(InvalidReturnType)
      else None
  }

  /** Every stored parser is well shaped and stored under its first result type. */
  ghost predicate Consistent(parsers: map<Type, FuncValue>)
  {
    forall t :: t in parsers ==> WellShaped(parsers[t]) && parsers[t].results[0] == t
  }

  /** Storing a well-shaped parser under its first result type keeps the registry consistent. */
  lemma StoreKeepsConsistent(parsers: map<Type, FuncValue>, f: FuncValue)
    requires Consistent(parsers)
    requires WellShaped(f)
    ensures Consistent(parsers[f.results[0] := f])
  {
  }

  /** The package-level `parsers` map of parser.go. */
  class Registry {
    var parsers: map<Type, FuncValue>

    ghost predicate Valid()
      reads this
    {
      Consistent(parsers)
    }

    /** The registry as the program starts: empty. */
    constructor ()
      ensures Valid()
      ensures parsers == map[]
    {
      parsers := map[];
    }

    /** Forgets every registration (what the tests do with `parsers = map[...]{}`). */
    method Reset()
      requires Valid()
      modifies this
      ensures Valid()
      ensures parsers == map[]
    {
      parsers := map[];
    }

    /**
      `UseParser`: a rejected parser leaves the registry unchanged; an accepted
      one is stored under its first result type, replacing any earlier parser
      for that type and touching no other entry.
    */
    method UseParser(p: Parser) returns (err: Option<RegisterError>)
      requires Valid()
      modifies this
      ensures Valid()
      ensures err == Validate(p)
      ensures err.Some? ==> parsers == old(parsers)
      ensures err.None? ==> parsers == old(parsers)[p.f.results[0] := p.f]
    {
      if p.Nil? {
        return Some(NilParser);
      }
      if p.NonFunc? {
        return Some(NotAParser(p.t));
      }
      var f := p.f;
      if |f.params| != 1 || f.params[0].kind != String {
        return Some(InvalidArgument);
      }
      if |f.results| < 1 || |f.results| > 2 {
        return Some(InvalidReturnType);
      }
      if |f.results| == 2 && f.results[1] != ErrorType {
        return Some(InvalidReturnType);
      }
      if f.results[0] == ErrorType {
        return Some(InvalidReturnType);
      }
      StoreKeepsConsistent(parsers, f);
      parsers := parsers[f.results[0] := f];
      err := None;
    }
  }

  /**
    Two accepted `UseParser` calls for the same result type, one after the
    other: only the later parser is kept, and every other entry is the one
    from before both calls.
  */
  method LastRegistrationWins(registry: Registry, f: FuncValue, g: FuncValue)
    returns (first: Option<RegisterError>, second: Option<RegisterError>)
    requires registry.Valid()
    requires WellShaped(f) && WellShaped(g) && f.results[0] == g.results[0]
    modifies registry
    ensures registry.Valid()
    ensures first.None? && second.None?
    ensures registry.parsers == old(registry.parsers)[g.results[0] := g]
  {
    first := registry.UseParser(Function(f));
    second := registry.UseParser(Function(g));
  }
}
