/**
  inject.go: `Inject` walks the fields of a struct in declaration order and
  writes into each tagged field the value of its environment variable (or the
  tag's default), converted by the registered parser for the field's type
  unless the field is a string. It stops at the first failure; fields written
  before it keep their new values.
*/
module Injector {
  import opened Wrappers
  import opened Reflect
  import opened GoStrings
  import opened Parsers

  /**
    A declared struct field: its name, its type, the value of its `environ`
    tag key if it has one (what `f.Tag.Lookup("environ")` returns), and
    whether it is exported (reflection can only set exported fields).
  */
  datatype FieldDecl = FieldDecl(name: string, typ: Type, tag: Option<string>, exported: bool)

  /** A struct value in memory: its declared fields and their current values. */
  class Record {
    const fields: seq<FieldDecl>
    const values: array<Value>

    ghost predicate Valid()
    {
      values.Length == |fields|
    }

    /** A zero-initialised struct, as `var config testConfig` declares one. */
    constructor (fields: seq<FieldDecl>)
      ensures Valid()
      ensures this.fields == fields && fresh(values)
      ensures forall j :: 0 <= j < values.Length ==> values[j] == Zero
    {
      this.fields := fields;
      values := new Value[|fields|](_ => Zero);
    }
  }

  /** The dynamic type of a non-pointer value: any type whose kind is not `Pointer`. */
  type NonPointerType = t: Type | t.kind != Pointer witness Type("string", String)

  /** The argument of `Inject`: a pointer to a struct, or any non-pointer value of type `t`. */
  datatype Holder = PointerTo(target: Record) | NotPointer(t: NonPointerType)

  /**
    Why `Inject` stops. `CallPanic` is the panic `reflect.Value.Call` raises
    when the parser registered for type `t` cannot be called with a plain
    `string`: it is a typed nil function, or its parameter has string kind but
    a named type other than `string` (a `string` value is not assignable to
    it). `SetPanic` is the panic `reflect.Value.Set` raises when the field
    cannot take the value: the field is unexported, or it has string kind but
    a named type other than `string`.
  */
  datatype InjectError =
    | NotAPointer(t: Type)
    | MissingVariable(name: string)
    | NoParser(t: Type)
    | CallPanic(t: Type)
    | ParseFailed(name: string, cause: string)
    | SetPanic(field: string, t: Type)

  /** A parsed tag: the variable to look up and the default, both trimmed. */
  datatype Tag = Tag(variable: string, default: Option<string>)

  /**
    The tag value split on commas and trimmed; `None` when it has more than
    two tokens, in which case the field is skipped.
  */
  function ParseTag(raw: string): Option<Tag>
  {
    var tokens := Split(raw, ',');
    if |tokens| > 2 then None
    else Some(Tag(TrimSpace(tokens[0]), if |tokens| == 2 then Some(TrimSpace(tokens[1])) else None))
  }

  /** A tag is skipped exactly when it holds two or more commas. */
  lemma ParseTagSkips(raw: string)
    ensures ParseTag(raw).None? <==> Count(raw, ',') >= 2
  {
  }

  /** Name and default never begin or end with white space. */
  lemma ParseTagTrims(raw: string)
    requires ParseTag(raw).Some?
    ensures var t := ParseTag(raw).value;
      (t.variable != [] ==> !IsSpace(t.variable[0]) && !IsSpace(t.variable[|t.variable| - 1]))
      && (t.default.Some? && t.default.value != [] ==>
            !IsSpace(t.default.value[0]) && !IsSpace(t.default.value[|t.default.value| - 1]))
  {
  }

  /** A comma-free tag names a variable and gives no default; the empty tag names the variable "". */
  lemma ParseTagNameOnly(a: string)
    requires ',' !in a
    ensures ParseTag(a) == Some(Tag(TrimSpace(a), None))
  {
    SplitWithoutSep(a, ',');
  }

  /** A tag with one comma names a variable before it and a default after it. */
  lemma ParseTagWithDefault(a: string, b: string)
    requires ',' !in a && ',' !in b
    ensures ParseTag(a + "," + b) == Some(Tag(TrimSpace(a), Some(TrimSpace(b))))
  {
    SplitAtFirstSep(a, b, ',');
    SplitWithoutSep(b, ',');
  }

  /**
    A name a process environment can hold: non-empty and free of `=`. Go's
    `syscall.Getenv` reports the empty key as absent, and its environment
    table is built by cutting each `key=value` entry at its first `=`.
  */
  predicate EnvKey(name: string)
  {
    name != "" && '=' !in name
  }

  /** `os.LookupEnv` on the environment `env`: a name that is no environment key is never set. */
  function LookupEnv(env: map<string, string>, name: string): Option<string>
  {
    if EnvKey(name) && name in env then Some(env[name]) else None
  }

  /** Where a field's string comes from. */
  datatype Resolution = Unbound | Missing(name: string) | Found(name: string, value: string)

  /**
    The environment value of the tag's variable, verbatim, if the variable is
    set; otherwise the tag's default; otherwise the variable is missing.
    Untagged fields and skipped tags are unbound.
  */
  function Resolve(tag: Option<string>, env: map<string, string>): Resolution
  {
    if tag.None? then Unbound
    else match ParseTag(tag.value)
      case None => Unbound
      case Some(Tag(name, default)) =>
        match LookupEnv(env, name)
        case Some(value) => Found(name, value)
        case None => if default.Some? then Found(name, default.value) else Missing(name)
  }

  /**
    A comma-free tag: the variable's value if it is set, otherwise a
    missing-variable failure (always so for a tag that trims to "" or to a
    name holding `=`).
  */
  lemma ResolveNameOnly(a: string, env: map<string, string>)
    requires ',' !in a
    ensures var n := TrimSpace(a);
      Resolve(Some(a), env) == if EnvKey(n) && n in env then Found(n, env[n]) else Missing(n)
  {
    ParseTagNameOnly(a);
  }

  /** A tag with a default never misses: the variable's value wins, else the trimmed default. */
  lemma ResolveWithDefault(a: string, b: string, env: map<string, string>)
    requires ',' !in a && ',' !in b
    ensures var n := TrimSpace(a);
      Resolve(Some(a + "," + b), env) == Found(n, if EnvKey(n) && n in env then env[n] else TrimSpace(b))
  {
    ParseTagWithDefault(a, b);
  }

  /** What Inject does with one field. */
  datatype Outcome = Skip | Assign(v: Value) | Fail(error: InjectError)

  /**
    The second half of a field's processing, once its string is known:
    a string-kind field takes the string itself; any other field the result
    of the parser registered for its exact type, unless there is none, it
    cannot be called with a `string`, or it reports an error.
  */
  function Convert(f: FieldDecl, name: string, value: string, parsers: map<Type, FuncValue>): Outcome
  {
    if f.typ.kind == String then
      if f.exported && f.typ == StringType then Assign(Text(value)) else Fail(SetPanic(f.name, f.typ))
    else if f.typ !in parsers then Fail(NoParser(f.typ))
    else
      var p := parsers[f.typ];
      if p.isNil || p.params != [StringType] then Fail(CallPanic(f.typ))
      else
        var ret := p.call(value);
        if |p.results| == 2 && ret.err.Some? then Fail(ParseFailed(name, ret.err.value))
        else if !f.exported then Fail(SetPanic(f.name, f.typ))
        else Assign(ret.value)
  }

  function FieldOutcome(f: FieldDecl, env: map<string, string>, parsers: map<Type, FuncValue>): Outcome
  {
    match Resolve(f.tag, env)
    case Unbound => Skip
    case Missing(name) => Fail(MissingVariable(name))
    case Found(name, value) => Convert(f, name, value, parsers)
  }

  /** The new value of a field with outcome `o` that held `v`. */
  function Apply(o: Outcome, v: Value): Value
  {
    if o.Assign? then o.v else v
  }

  /** Untagged fields are skipped without error. */
  lemma UntaggedFieldSkipped(f: FieldDecl, env: map<string, string>, parsers: map<Type, FuncValue>)
    requires f.tag.None?
    ensures FieldOutcome(f, env, parsers) == Skip
  {
  }

  /** Fields whose tag holds two or more commas are skipped without error. */
  lemma ManyTokensSkipped(f: FieldDecl, env: map<string, string>, parsers: map<Type, FuncValue>)
    requires f.tag.Some? && Count(f.tag.value, ',') >= 2
    ensures FieldOutcome(f, env, parsers) == Skip
  {
    ParseTagSkips(f.tag.value);
  }

  /** A string-kind field never consults the registry. */
  lemma StringFieldIgnoresRegistry(f: FieldDecl, env: map<string, string>, ps: map<Type, FuncValue>, qs: map<Type, FuncValue>)
    requires f.typ.kind == String
    ensures FieldOutcome(f, env, ps) == FieldOutcome(f, env, qs)
  {
  }

  /** An exported `string` field with a resolved string receives exactly that string. */
  lemma StringFieldGetsString(f: FieldDecl, env: map<string, string>, parsers: map<Type, FuncValue>)
    requires f.typ == StringType && f.exported
    requires Resolve(f.tag, env).Found?
    ensures FieldOutcome(f, env, parsers) == Assign(Text(Resolve(f.tag, env).value))
  {
  }

  /**
    A missing parser is reported only for a non-string field whose string was
    resolved; in particular a missing variable is reported before it.
  */
  lemma NoParserAfterResolution(f: FieldDecl, env: map<string, string>, parsers: map<Type, FuncValue>)
    ensures FieldOutcome(f, env, parsers).Fail? && FieldOutcome(f, env, parsers).error.NoParser?
      <==> Resolve(f.tag, env).Found? && f.typ.kind != String && f.typ !in parsers
    ensures FieldOutcome(f, env, parsers).Fail? && FieldOutcome(f, env, parsers).error.NoParser? ==>
      FieldOutcome(f, env, parsers).error.t == f.typ
  {
  }

  /**
    A resolved non-string field with a registered parser is written exactly
    when the parser can be called with a plain `string` (it is not a typed nil
    function and its parameter is `string` itself), a two-result parser
    reports no error, and the field is exported; it then receives the
    parser's first result. An uncallable parser panics in `Call` whatever the
    field, and a parser error is wrapped with the variable name even on an
    unexported field.
  */
  lemma ParserDecides(f: FieldDecl, env: map<string, string>, parsers: map<Type, FuncValue>)
    requires Resolve(f.tag, env).Found?
    requires f.typ.kind != String && f.typ in parsers
    ensures var r := Resolve(f.tag, env);
      var p := parsers[f.typ];
      var callable := !p.isNil && p.params == [StringType];
      var ret := p.call(r.value);
      var parseError := |p.results| == 2 && ret.err.Some?;
      var o := FieldOutcome(f, env, parsers);
      && (o.Assign? <==> callable && !parseError && f.exported)
      && (o.Assign? ==> o.v == ret.value)
      && (!callable ==> o == Fail(CallPanic(f.typ)))
      && (callable && parseError ==> o == Fail(ParseFailed(r.name, ret.err.value)))
  {
  }

  /**
    With a consistent registry, a value written into a non-string field comes
    from a non-nil parser that takes a plain `string` and whose first result
    type is the field's own type, so `reflect.Value.Set` accepts it.
  */
  lemma AssignedByMatchingParser(f: FieldDecl, env: map<string, string>, parsers: map<Type, FuncValue>)
    requires Consistent(parsers)
    requires f.typ.kind != String && FieldOutcome(f, env, parsers).Assign?
    ensures f.typ in parsers && f.exported
    ensures !parsers[f.typ].isNil && parsers[f.typ].params == [StringType]
    ensures parsers[f.typ].results[0] == f.typ
  {
  }

  /** The outcomes of all fields, in declaration order. */
  function Outcomes(fields: seq<FieldDecl>, env: map<string, string>, parsers: map<Type, FuncValue>): (r: seq<Outcome>)
    ensures |r| == |fields|
  {
    if fields == [] then []
    else [FieldOutcome(fields[0], env, parsers)] + Outcomes(fields[1..], env, parsers)
  }

  lemma {:induction false} OutcomesAt(fields: seq<FieldDecl>, env: map<string, string>, parsers: map<Type, FuncValue>, j: nat)
    requires j < |fields|
    ensures Outcomes(fields, env, parsers)[j] == FieldOutcome(fields[j], env, parsers)
    decreases j
  {
    if j > 0 {
      OutcomesAt(fields[1..], env, parsers, j - 1);
    }
  }

  /** The index of the first failing outcome, or `|outs|` when there is none. */
  function FirstFailure(outs: seq<Outcome>): (k: nat)
    ensures k <= |outs|
    ensures forall j :: 0 <= j < k ==> !outs[j].Fail?
    ensures k < |outs| ==> outs[k].Fail?
  {
    if outs == [] then 0
    else if outs[0].Fail? then 0
    else
      var k := FirstFailure(outs[1..]);
      assert forall j :: 1 <= j < k + 1 ==> outs[j] == outs[1..][j - 1];
      1 + k
  }

  /** The first failure is the least failing index. */
  lemma FirstFailureIs(outs: seq<Outcome>, i: nat)
    requires i <= |outs|
    requires forall j :: 0 <= j < i ==> !outs[j].Fail?
    requires i < |outs| ==> outs[i].Fail?
    ensures FirstFailure(outs) == i
  {
  }

  /** The variable a tag names: its text before the first comma, trimmed (`varName` in inject.go). */
  function TagVariable(raw: string): string
  {
    TrimSpace(Split(raw, ',')[0])
  }

  /**
    A struct whose tagged fields are all exported `string` fields with at
    most one comma in the tag, each naming a variable that is set: nothing
    fails, and every such field receives its variable's value exactly,
    whether or not its tag gives a default.
  */
  lemma AllStringFieldsSet(fields: seq<FieldDecl>, env: map<string, string>, parsers: map<Type, FuncValue>)
    requires forall j :: 0 <= j < |fields| && fields[j].tag.Some? ==>
      fields[j].typ == StringType && fields[j].exported && Count(fields[j].tag.value, ',') <= 1 &&
      EnvKey(TagVariable(fields[j].tag.value)) && TagVariable(fields[j].tag.value) in env
    ensures FirstFailure(Outcomes(fields, env, parsers)) == |fields|
    ensures forall j :: 0 <= j < |fields| && fields[j].tag.Some? ==>
      Outcomes(fields, env, parsers)[j] == Assign(Text(env[TagVariable(fields[j].tag.value)]))
  {
    var outs := Outcomes(fields, env, parsers);
    forall j | 0 <= j < |fields|
      ensures !outs[j].Fail?
      ensures fields[j].tag.Some? ==> outs[j] == Assign(Text(env[TagVariable(fields[j].tag.value)]))
    {
      OutcomesAt(fields, env, parsers, j);
    }
    FirstFailureIs(outs, |fields|);
  }

  /**
    `Inject`. A non-pointer holder is refused and nothing changes. Otherwise,
    with `k` the first failing field: the call fails exactly when there is
    one, with that field's error; fields before `k` hold their outcomes,
    fields from `k` on are untouched.
  */
  method Inject(holder: Holder, env: map<string, string>, registry: Registry) returns (err: Option<InjectError>)
    requires registry.Valid()
    requires holder.PointerTo? ==> holder.target.Valid()
    modifies if holder.PointerTo? then {holder.target.values} else {}
    ensures holder.NotPointer? ==> err == Some(NotAPointer(holder.t))
    ensures holder.PointerTo? ==>
      var outs := Outcomes(holder.target.fields, env, registry.parsers);
      var k := FirstFailure(outs);
      && (err.None? <==> k == |outs|)
      && (k < |outs| ==> err == Some(outs[k].error))
      && (forall j :: 0 <= j < |outs| ==>
            holder.target.values[j] ==
              if j < k then Apply(outs[j], old(holder.target.values[j])) else old(holder.target.values[j]))
  {
    if holder.NotPointer? {
      return Some(NotAPointer(holder.t));
    }
    var s := holder.target;
    var fields := s.fields;
    ghost var outs := Outcomes(fields, env, registry.parsers);
    for i := 0 to |fields|
      invariant forall j :: 0 <= j < i ==> !outs[j].Fail?
      invariant forall j :: 0 <= j < i ==> s.values[j] == Apply(outs[j], old(s.values[j]))
      invariant forall j :: i <= j < |fields| ==> s.values[j] == old(s.values[j])
    {
      var outcome := InjectField(fields[i], env, registry);
      OutcomesAt(fields, env, registry.parsers, i);
      match outcome
      case Skip =>
      case Assign(v) =>
        s.values[i] := v;
      case Fail(e) =>
        FirstFailureIs(outs, i);
        return Some(e);
    }
    FirstFailureIs(outs, |fields|);
    return None;
  }

  /**
    The body of Inject's loop for one field, with Go's early exits: `Skip`
    where it continues without writing, `Assign` where it sets the field,
    `Fail` where it returns an error or `Set` panics.
  */
  method InjectField(f: FieldDecl, env: map<string, string>, registry: Registry) returns (o: Outcome)
    requires registry.Valid()
    ensures o == FieldOutcome(f, env, registry.parsers)
  {
    if f.tag.None? {
      return Skip;
    }
    var tokens := Split(f.tag.value, ',');
    if |tokens| < 1 || |tokens| > 2 {
      return Skip;
    }
    var varName := TrimSpace(tokens[0]);
    var varType := f.typ;
    var varValue: string;
    var found := LookupEnv(env, varName);
    if found.Some? {
      varValue := found.value;
    } else {
      if |tokens| < 2 {
        return Fail(MissingVariable(varName));
      }
      varValue := TrimSpace(tokens[1]);
    }
    if varType.kind == String {
      if !f.exported || varType != StringType {
        return Fail(SetPanic(f.name, varType));
      }
      return Assign(Text(varValue));
    }
    if varType !in registry.parsers {
      return Fail(NoParser(varType));
    }
    var parser := registry.parsers[varType];
    if parser.isNil || parser.params != [StringType] {
      return Fail(CallPanic(varType));
    }
    var result := parser.call(varValue);
    if |parser.results| == 2 && result.err.Some? {
      return Fail(ParseFailed(varName, result.err.value));
    }
    if !f.exported {
      return Fail(SetPanic(f.name, varType));
    }
    return Assign(result.value);
  }
}
