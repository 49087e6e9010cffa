/**
  The cases of inject_test.go and parser_test.go, replayed against the model
  as client code. Each scenario builds the registry and the struct its test
  builds and calls the operations. Where the test uses fixed variable names
  and values (`ENV_HOST`, `localhost`, ...), the scenario takes them as
  parameters that meet the conditions those literals meet: the tag names
  contain no comma and do not begin or end with white space, and each
  variable is set or unset as the test arranges. Its postcondition is what
  the test asserts, for every such choice.
*/
module Scenarios {
  import opened Wrappers
  import opened Reflect
  import opened GoStrings
  import opened Parsers
  import opened Injector

  const IntType := Type("int", Int)
  const Float64Type := Type("float64", Float64)

  /** A tag token as the tests write them: non-empty, no comma or `=`, no surrounding white space. */
  predicate Plain(a: string)
  {
    a != [] && ',' !in a && '=' !in a && !IsSpace(a[0]) && !IsSpace(a[|a| - 1])
  }

  /** A non-nil parser of type `func(string) (T, error)`. */
  predicate TwoResultParser(p: FuncValue, t: Type)
  {
    p.params == [StringType] && p.results == [t, ErrorType] && !p.isNil
  }

  function Exported(name: string, typ: Type, tag: string): FieldDecl
  {
    FieldDecl(name, typ, Some(tag), true)
  }

  lemma PlainTag(a: string, env: map<string, string>)
    requires Plain(a)
    ensures Resolve(Some(a), env) == if a in env then Found(a, env[a]) else Missing(a)
  {
    TrimSpaceKeepsTrimmed(a);
    ResolveNameOnly(a, env);
  }

  lemma PlainTagWithDefault(a: string, b: string, env: map<string, string>)
    requires Plain(a) && Plain(b)
    ensures Resolve(Some(a + "," + b), env) == Found(a, if a in env then env[a] else b)
  {
    TrimSpaceKeepsTrimmed(a);
    TrimSpaceKeepsTrimmed(b);
    ResolveWithDefault(a, b, env);
  }

  /** A fresh registry holding the one parser `p`, as a test's `UseParser` calls leave it. */
  method RegisterOne(p: FuncValue, t: Type) returns (registry: Registry)
    requires TwoResultParser(p, t) && t != ErrorType
    ensures fresh(registry) && registry.Valid()
    ensures registry.parsers == map[t := p]
  {
    registry := new Registry();
    var e := registry.UseParser(Function(p));
    assert e.None?;
  }

  /** The two `UseParser` calls of TestOkWithParser, on a fresh registry. */
  method RegisterNumberParsers(atoi: FuncValue, parseFloat: FuncValue) returns (registry: Registry)
    requires TwoResultParser(atoi, IntType) && TwoResultParser(parseFloat, Float64Type)
    ensures fresh(registry) && registry.Valid()
    ensures registry.parsers == map[IntType := atoi, Float64Type := parseFloat]
  {
    registry := new Registry();
    var e1 := registry.UseParser(Function(atoi));
    var e2 := registry.UseParser(Function(parseFloat));
    assert e1.None? && e2.None?;
  }

  /** The struct of TestOk and TestOkWithParser; the two tests differ in the types of Port and Freq. */
  function OkFields(host: string, port: string, freq: string, token: string, dflt: string, portType: Type, freqType: Type): seq<FieldDecl>
  {
    [Exported("Host", StringType, host),
     Exported("Port", portType, port),
     Exported("Freq", freqType, freq),
     Exported("Token", StringType, token + "," + dflt)]
  }

  /** The struct of TestNoParserFound and TestParserError: a string Host and an int Port. */
  function HostPortFields(host: string, port: string): seq<FieldDecl>
  {
    [Exported("Host", StringType, host), Exported("Port", IntType, port)]
  }

  /** The struct of TestRandomTags: a three-token tag and an untagged field after Host and Port. */
  function RandomTagsFields(host: string, port: string, a: string, b: string, c: string): seq<FieldDecl>
  {
    [Exported("Host", StringType, host),
     Exported("Port", StringType, port),
     FieldDecl("Random", StringType, Some(Join([a, b, c], ',')), true),
     FieldDecl("Key", StringType, None, true)]
  }

  /** An exported `string` field whose plain tag names a set variable receives that variable's value. */
  lemma StringField(name: string, a: string, env: map<string, string>, ps: map<Type, FuncValue>)
    requires Plain(a) && a in env
    ensures FieldOutcome(Exported(name, StringType, a), env, ps) == Assign(Text(env[a]))
  {
    PlainTag(a, env);
  }

  /** An exported `string` field whose plain tag names an unset variable receives the tag's default. */
  lemma DefaultStringField(name: string, a: string, b: string, env: map<string, string>, ps: map<Type, FuncValue>)
    requires Plain(a) && Plain(b) && a !in env
    ensures FieldOutcome(Exported(name, StringType, a + "," + b), env, ps) == Assign(Text(b))
  {
    PlainTagWithDefault(a, b, env);
  }

  /** A field whose tag joins three comma-free tokens is skipped. */
  lemma ThreeTokenField(f: FieldDecl, a: string, b: string, c: string, env: map<string, string>, ps: map<Type, FuncValue>)
    requires ',' !in a && ',' !in b && ',' !in c && f.tag == Some(Join([a, b, c], ','))
    ensures FieldOutcome(f, env, ps) == Skip
  {
    JoinThenSplit([a, b, c], ',');
    ManyTokensSkipped(f, env, ps);
  }

  /** A field whose plain tag names an unset variable and gives no default fails on that variable, whatever its type. */
  lemma MissingField(name: string, t: Type, a: string, env: map<string, string>, ps: map<Type, FuncValue>)
    requires Plain(a) && a !in env
    ensures FieldOutcome(Exported(name, t, a), env, ps) == Fail(MissingVariable(a))
  {
    PlainTag(a, env);
  }

  /** A non-string field whose plain tag names a set variable, with no parser for its type. */
  lemma NoParserField(name: string, t: Type, a: string, env: map<string, string>, ps: map<Type, FuncValue>)
    requires Plain(a) && a in env && t.kind != String && t !in ps
    ensures FieldOutcome(Exported(name, t, a), env, ps) == Fail(NoParser(t))
  {
    PlainTag(a, env);
  }

  /** An exported field of type `t` whose plain tag names a set variable, converted without error by the parser for `t`. */
  lemma ParsedField(name: string, t: Type, a: string, env: map<string, string>, ps: map<Type, FuncValue>)
    requires Plain(a) && a in env && t.kind != String
    requires t in ps && TwoResultParser(ps[t], t) && ps[t].call(env[a]).err.None?
    ensures FieldOutcome(Exported(name, t, a), env, ps) == Assign(ps[t].call(env[a]).value)
  {
    PlainTag(a, env);
  }

  /** The same field when the parser reports an error: it fails with the error wrapped with the variable name. */
  lemma FailingParserField(name: string, t: Type, a: string, env: map<string, string>, ps: map<Type, FuncValue>)
    requires Plain(a) && a in env && t.kind != String
    requires t in ps && TwoResultParser(ps[t], t) && ps[t].call(env[a]).err.Some?
    ensures FieldOutcome(Exported(name, t, a), env, ps) == Fail(ParseFailed(a, ps[t].call(env[a]).err.value))
  {
    PlainTag(a, env);
  }

  /** A non-string field whose variable is unset receives its default, converted by the parser for its type. */
  lemma DefaultParsedField(name: string, t: Type, a: string, b: string, env: map<string, string>, ps: map<Type, FuncValue>)
    requires Plain(a) && Plain(b) && a !in env && t.kind != String
    requires t in ps && TwoResultParser(ps[t], t) && ps[t].call(b).err.None?
    ensures FieldOutcome(Exported(name, t, a + "," + b), env, ps) == Assign(ps[t].call(b).value)
  {
    PlainTagWithDefault(a, b, env);
  }

  /** Four outcomes none of which fails: the sequence is exactly those four and its first failure is its end. */
  lemma FourOutcomes(outs: seq<Outcome>, o0: Outcome, o1: Outcome, o2: Outcome, o3: Outcome)
    requires |outs| == 4 && outs[0] == o0 && outs[1] == o1 && outs[2] == o2 && outs[3] == o3
    requires !o0.Fail? && !o1.Fail? && !o2.Fail? && !o3.Fail?
    ensures outs == [o0, o1, o2, o3]
    ensures FirstFailure(outs) == 4
  {
    FirstFailureIs(outs, 4);
  }

  /** The first two fields of TestOk's struct: Host and Port take their variables. */
  lemma OkHead(env: map<string, string>, ps: map<Type, FuncValue>, host: string, port: string, freq: string, token: string, dflt: string)
    requires Plain(host) && Plain(port) && host in env && port in env
    ensures Outcomes(OkFields(host, port, freq, token, dflt, StringType, StringType), env, ps)[0] == Assign(Text(env[host]))
    ensures Outcomes(OkFields(host, port, freq, token, dflt, StringType, StringType), env, ps)[1] == Assign(Text(env[port]))
  {
    var fields := OkFields(host, port, freq, token, dflt, StringType, StringType);
    OutcomesAt(fields, env, ps, 0);
    StringField("Host", host, env, ps);
    OutcomesAt(fields, env, ps, 1);
    StringField("Port", port, env, ps);
  }

  /** The last two fields of TestOk's struct: Freq takes its variable, Token its default. */
  lemma OkTail(env: map<string, string>, ps: map<Type, FuncValue>, host: string, port: string, freq: string, token: string, dflt: string)
    requires Plain(freq) && Plain(token) && Plain(dflt) && freq in env && token !in env
    ensures Outcomes(OkFields(host, port, freq, token, dflt, StringType, StringType), env, ps)[2] == Assign(Text(env[freq]))
    ensures Outcomes(OkFields(host, port, freq, token, dflt, StringType, StringType), env, ps)[3] == Assign(Text(dflt))
  {
    var fields := OkFields(host, port, freq, token, dflt, StringType, StringType);
    OutcomesAt(fields, env, ps, 2);
    StringField("Freq", freq, env, ps);
    OutcomesAt(fields, env, ps, 3);
    DefaultStringField("Token", token, dflt, env, ps);
  }

  lemma OkOutcomes(env: map<string, string>, ps: map<Type, FuncValue>, host: string, port: string, freq: string, token: string, dflt: string)
    requires Plain(host) && Plain(port) && Plain(freq) && Plain(token) && Plain(dflt)
    requires host in env && port in env && freq in env && token !in env
    ensures Outcomes(OkFields(host, port, freq, token, dflt, StringType, StringType), env, ps) ==
      [Assign(Text(env[host])), Assign(Text(env[port])), Assign(Text(env[freq])), Assign(Text(dflt))]
    ensures FirstFailure(Outcomes(OkFields(host, port, freq, token, dflt, StringType, StringType), env, ps)) == 4
  {
    OkHead(env, ps, host, port, freq, token, dflt);
    OkTail(env, ps, host, port, freq, token, dflt);
    FourOutcomes(Outcomes(OkFields(host, port, freq, token, dflt, StringType, StringType), env, ps),
                 Assign(Text(env[host])), Assign(Text(env[port])), Assign(Text(env[freq])), Assign(Text(dflt)));
  }

  /** The first two fields of TestOkWithParser's struct: Host takes its variable, Port its parsed variable. */
  lemma OkWithParserHead(env: map<string, string>, ps: map<Type, FuncValue>,
                         host: string, port: string, freq: string, token: string, dflt: string)
    requires Plain(host) && Plain(port) && host in env && port in env
    requires IntType in ps && TwoResultParser(ps[IntType], IntType) && ps[IntType].call(env[port]).err.None?
    ensures Outcomes(OkFields(host, port, freq, token, dflt, IntType, Float64Type), env, ps)[0] == Assign(Text(env[host]))
    ensures Outcomes(OkFields(host, port, freq, token, dflt, IntType, Float64Type), env, ps)[1] ==
      Assign(ps[IntType].call(env[port]).value)
  {
    var fields := OkFields(host, port, freq, token, dflt, IntType, Float64Type);
    OutcomesAt(fields, env, ps, 0);
    StringField("Host", host, env, ps);
    OutcomesAt(fields, env, ps, 1);
    ParsedField("Port", IntType, port, env, ps);
  }

  /** The last two fields of TestOkWithParser's struct: Freq takes its parsed variable, Token its default. */
  lemma OkWithParserTail(env: map<string, string>, ps: map<Type, FuncValue>,
                         host: string, port: string, freq: string, token: string, dflt: string)
    requires Plain(freq) && Plain(token) && Plain(dflt) && freq in env && token !in env
    requires Float64Type in ps && TwoResultParser(ps[Float64Type], Float64Type) && ps[Float64Type].call(env[freq]).err.None?
    ensures Outcomes(OkFields(host, port, freq, token, dflt, IntType, Float64Type), env, ps)[2] ==
      Assign(ps[Float64Type].call(env[freq]).value)
    ensures Outcomes(OkFields(host, port, freq, token, dflt, IntType, Float64Type), env, ps)[3] == Assign(Text(dflt))
  {
    var fields := OkFields(host, port, freq, token, dflt, IntType, Float64Type);
    OutcomesAt(fields, env, ps, 2);
    ParsedField("Freq", Float64Type, freq, env, ps);
    OutcomesAt(fields, env, ps, 3);
    DefaultStringField("Token", token, dflt, env, ps);
  }

  lemma OkWithParserOutcomes(env: map<string, string>, ps: map<Type, FuncValue>,
                             host: string, port: string, freq: string, token: string, dflt: string)
    requires Plain(host) && Plain(port) && Plain(freq) && Plain(token) && Plain(dflt)
    requires host in env && port in env && freq in env && token !in env
    requires IntType in ps && Float64Type in ps
    requires TwoResultParser(ps[IntType], IntType) && TwoResultParser(ps[Float64Type], Float64Type)
    requires ps[IntType].call(env[port]).err.None? && ps[Float64Type].call(env[freq]).err.None?
    ensures Outcomes(OkFields(host, port, freq, token, dflt, IntType, Float64Type), env, ps) ==
      [Assign(Text(env[host])), Assign(ps[IntType].call(env[port]).value),
       Assign(ps[Float64Type].call(env[freq]).value), Assign(Text(dflt))]
    ensures FirstFailure(Outcomes(OkFields(host, port, freq, token, dflt, IntType, Float64Type), env, ps)) == 4
  {
    OkWithParserHead(env, ps, host, port, freq, token, dflt);
    OkWithParserTail(env, ps, host, port, freq, token, dflt);
    FourOutcomes(Outcomes(OkFields(host, port, freq, token, dflt, IntType, Float64Type), env, ps),
                 Assign(Text(env[host])), Assign(ps[IntType].call(env[port]).value),
                 Assign(ps[Float64Type].call(env[freq]).value), Assign(Text(dflt)));
  }

  /** Host is written from its variable and Port fails with `o`: Port is the first failure. */
  lemma HostPortOutcomes(env: map<string, string>, ps: map<Type, FuncValue>, host: string, port: string, o: Outcome)
    requires Plain(host) && host in env
    requires FieldOutcome(Exported("Port", IntType, port), env, ps) == o && o.Fail?
    ensures Outcomes(HostPortFields(host, port), env, ps) == [Assign(Text(env[host])), o]
    ensures FirstFailure(Outcomes(HostPortFields(host, port), env, ps)) == 1
  {
    var fields := HostPortFields(host, port);
    OutcomesAt(fields, env, ps, 0);
    OutcomesAt(fields, env, ps, 1);
    StringField("Host", host, env, ps);
    FirstFailureIs([Assign(Text(env[host])), o], 1);
  }

  lemma NoParserOutcomes(env: map<string, string>, ps: map<Type, FuncValue>, host: string, port: string)
    requires Plain(host) && Plain(port) && host in env && port in env && IntType !in ps
    ensures Outcomes(HostPortFields(host, port), env, ps) == [Assign(Text(env[host])), Fail(NoParser(IntType))]
    ensures FirstFailure(Outcomes(HostPortFields(host, port), env, ps)) == 1
  {
    NoParserField("Port", IntType, port, env, ps);
    HostPortOutcomes(env, ps, host, port, Fail(NoParser(IntType)));
  }

  lemma ParserErrorOutcomes(env: map<string, string>, ps: map<Type, FuncValue>, host: string, port: string)
    requires Plain(host) && Plain(port) && host in env && port in env
    requires IntType in ps && TwoResultParser(ps[IntType], IntType) && ps[IntType].call(env[port]).err.Some?
    ensures Outcomes(HostPortFields(host, port), env, ps) ==
      [Assign(Text(env[host])), Fail(ParseFailed(port, ps[IntType].call(env[port]).err.value))]
    ensures FirstFailure(Outcomes(HostPortFields(host, port), env, ps)) == 1
  {
    FailingParserField("Port", IntType, port, env, ps);
    HostPortOutcomes(env, ps, host, port, Fail(ParseFailed(port, ps[IntType].call(env[port]).err.value)));
  }

  lemma MissingPortOutcomes(env: map<string, string>, ps: map<Type, FuncValue>, host: string, port: string)
    requires Plain(host) && Plain(port) && host in env && port !in env
    ensures Outcomes(HostPortFields(host, port), env, ps) == [Assign(Text(env[host])), Fail(MissingVariable(port))]
    ensures FirstFailure(Outcomes(HostPortFields(host, port), env, ps)) == 1
  {
    MissingField("Port", IntType, port, env, ps);
    HostPortOutcomes(env, ps, host, port, Fail(MissingVariable(port)));
  }

  /** The first two fields of TestRandomTags' struct: Host and Port take their variables. */
  lemma RandomTagsHead(env: map<string, string>, ps: map<Type, FuncValue>, host: string, port: string, a: string, b: string, c: string)
    requires Plain(host) && Plain(port) && host in env && port in env
    ensures Outcomes(RandomTagsFields(host, port, a, b, c), env, ps)[0] == Assign(Text(env[host]))
    ensures Outcomes(RandomTagsFields(host, port, a, b, c), env, ps)[1] == Assign(Text(env[port]))
  {
    var fields := RandomTagsFields(host, port, a, b, c);
    OutcomesAt(fields, env, ps, 0);
    StringField("Host", host, env, ps);
    OutcomesAt(fields, env, ps, 1);
    StringField("Port", port, env, ps);
  }

  /** The last two fields of TestRandomTags' struct are skipped. */
  lemma RandomTagsTail(env: map<string, string>, ps: map<Type, FuncValue>, host: string, port: string, a: string, b: string, c: string)
    requires ',' !in a && ',' !in b && ',' !in c
    ensures Outcomes(RandomTagsFields(host, port, a, b, c), env, ps)[2] == Skip
    ensures Outcomes(RandomTagsFields(host, port, a, b, c), env, ps)[3] == Skip
  {
    var fields := RandomTagsFields(host, port, a, b, c);
    OutcomesAt(fields, env, ps, 2);
    ThreeTokenField(fields[2], a, b, c, env, ps);
    OutcomesAt(fields, env, ps, 3);
  }

  lemma RandomTagsOutcomes(env: map<string, string>, ps: map<Type, FuncValue>, host: string, port: string, a: string, b: string, c: string)
    requires Plain(host) && Plain(port) && host in env && port in env
    requires ',' !in a && ',' !in b && ',' !in c
    ensures Outcomes(RandomTagsFields(host, port, a, b, c), env, ps) ==
      [Assign(Text(env[host])), Assign(Text(env[port])), Skip, Skip]
    ensures FirstFailure(Outcomes(RandomTagsFields(host, port, a, b, c), env, ps)) == 4
  {
    RandomTagsHead(env, ps, host, port, a, b, c);
    RandomTagsTail(env, ps, host, port, a, b, c);
    FourOutcomes(Outcomes(RandomTagsFields(host, port, a, b, c), env, ps), Assign(Text(env[host])), Assign(Text(env[port])), Skip, Skip);
  }

  /** The struct of TestNoDefaultVar: one string field whose variable has no default. */
  lemma NoDefaultOutcomes(env: map<string, string>, ps: map<Type, FuncValue>, host: string)
    requires Plain(host) && host !in env
    ensures Outcomes([Exported("Host", StringType, host)], env, ps) == [Fail(MissingVariable(host))]
    ensures FirstFailure(Outcomes([Exported("Host", StringType, host)], env, ps)) == 0
  {
    OutcomesAt([Exported("Host", StringType, host)], env, ps, 0);
    MissingField("Host", StringType, host, env, ps);
  }

  /** One int field whose variable is unset and whose default the parser converts. */
  lemma DefaultConvertedOutcomes(env: map<string, string>, ps: map<Type, FuncValue>, port: string, dflt: string)
    requires Plain(port) && Plain(dflt) && port !in env
    requires IntType in ps && TwoResultParser(ps[IntType], IntType) && ps[IntType].call(dflt).err.None?
    ensures Outcomes([Exported("Port", IntType, port + "," + dflt)], env, ps) == [Assign(ps[IntType].call(dflt).value)]
    ensures FirstFailure(Outcomes([Exported("Port", IntType, port + "," + dflt)], env, ps)) == 1
  {
    OutcomesAt([Exported("Port", IntType, port + "," + dflt)], env, ps, 0);
    DefaultParsedField("Port", IntType, port, dflt, env, ps);
    FirstFailureIs([Assign(ps[IntType].call(dflt).value)], 1);
  }

  /** A test's `var config testConfig; err := Inject(&config)`: a zero-initialised struct with these fields, injected. */
  method InjectFresh(fields: seq<FieldDecl>, env: map<string, string>, registry: Registry)
    returns (err: Option<InjectError>, values: seq<Value>)
    requires registry.Valid()
    ensures var outs := Outcomes(fields, env, registry.parsers);
      var k := FirstFailure(outs);
      && (err.None? <==> k == |outs|)
      && (k < |outs| ==> err == Some(outs[k].error))
      && |values| == |fields|
      && (forall j :: 0 <= j < |fields| ==> values[j] == if j < k then Apply(outs[j], Zero) else Zero)
  {
    var config := new Record(fields);
    err := Inject(PointerTo(config), env, registry);
    values := config.values[..];
  }

  /** TestOk: four string fields, the last one falling back to its default. */
  method TestOk(env: map<string, string>, host: string, port: string, freq: string, token: string, dflt: string)
    returns (err: Option<InjectError>, values: seq<Value>)
    requires Plain(host) && Plain(port) && Plain(freq) && Plain(token) && Plain(dflt)
    requires host in env && port in env && freq in env && token !in env
    ensures err.None?
    ensures values == [Text(env[host]), Text(env[port]), Text(env[freq]), Text(dflt)]
  {
    var registry := new Registry();
    OkOutcomes(env, registry.parsers, host, port, freq, token, dflt);
    err, values := InjectFresh(OkFields(host, port, freq, token, dflt, StringType, StringType), env, registry);
  }

  /** TestOkWithParser: an int and a float64 field converted by the parsers registered for their types. */
  method TestOkWithParser(env: map<string, string>, host: string, port: string, freq: string, token: string, dflt: string,
                          atoi: FuncValue, parseFloat: FuncValue)
    returns (err: Option<InjectError>, values: seq<Value>)
    requires Plain(host) && Plain(port) && Plain(freq) && Plain(token) && Plain(dflt)
    requires host in env && port in env && freq in env && token !in env
    requires TwoResultParser(atoi, IntType) && TwoResultParser(parseFloat, Float64Type)
    requires atoi.call(env[port]).err.None? && parseFloat.call(env[freq]).err.None?
    ensures err.None?
    ensures values == [Text(env[host]), atoi.call(env[port]).value, parseFloat.call(env[freq]).value, Text(dflt)]
  {
    var registry := RegisterNumberParsers(atoi, parseFloat);
    OkWithParserOutcomes(env, registry.parsers, host, port, freq, token, dflt);
    err, values := InjectFresh(OkFields(host, port, freq, token, dflt, IntType, Float64Type), env, registry);
  }

  /** TestPassStructValue: a struct passed by value is refused. */
  method TestPassStructValue(env: map<string, string>) returns (err: Option<InjectError>)
    ensures err == Some(NotAPointer(Type("struct {}", Struct)))
  {
    var registry := new Registry();
    err := Inject(NotPointer(Type("struct {}", Struct)), env, registry);
  }

  /** TestNoDefaultVar: an unset variable without a default is reported by name. */
  method TestNoDefaultVar(env: map<string, string>, host: string) returns (err: Option<InjectError>, values: seq<Value>)
    requires Plain(host) && host !in env
    ensures err == Some(MissingVariable(host))
    ensures values == [Zero]
  {
    var registry := new Registry();
    NoDefaultOutcomes(env, registry.parsers, host);
    err, values := InjectFresh([Exported("Host", StringType, host)], env, registry);
  }

  /** TestNoParserFound: an int field with no int parser registered; Host is written first. */
  method TestNoParserFound(env: map<string, string>, host: string, port: string) returns (err: Option<InjectError>, values: seq<Value>)
    requires Plain(host) && Plain(port) && host in env && port in env
    ensures err == Some(NoParser(IntType))
    ensures values == [Text(env[host]), Zero]
  {
    var registry := new Registry();
    NoParserOutcomes(env, registry.parsers, host, port);
    err, values := InjectFresh(HostPortFields(host, port), env, registry);
  }

  /** TestParserError: the parser's error is wrapped with the variable name and Port stays zero. */
  method TestParserError(env: map<string, string>, host: string, port: string, failing: FuncValue)
    returns (err: Option<InjectError>, values: seq<Value>)
    requires Plain(host) && Plain(port) && host in env && port in env
    requires TwoResultParser(failing, IntType) && failing.call(env[port]).err.Some?
    ensures err == Some(ParseFailed(port, failing.call(env[port]).err.value))
    ensures values == [Text(env[host]), Zero]
  {
    var registry := RegisterOne(failing, IntType);
    ParserErrorOutcomes(env, registry.parsers, host, port);
    err, values := InjectFresh(HostPortFields(host, port), env, registry);
  }

  /** TestRandomTags: a three-token tag and an untagged field are left at their zero values. */
  method TestRandomTags(env: map<string, string>, host: string, port: string, a: string, b: string, c: string)
    returns (err: Option<InjectError>, values: seq<Value>)
    requires Plain(host) && Plain(port) && host in env && port in env
    requires ',' !in a && ',' !in b && ',' !in c
    ensures err.None?
    ensures values == [Text(env[host]), Text(env[port]), Zero, Zero]
  {
    var registry := new Registry();
    RandomTagsOutcomes(env, registry.parsers, host, port, a, b, c);
    err, values := InjectFresh(RandomTagsFields(host, port, a, b, c), env, registry);
  }

  /** A missing variable is reported before a missing parser: Host is written, Port fails on its variable. */
  method MissingVariableBeforeNoParser(env: map<string, string>, host: string, port: string)
    returns (err: Option<InjectError>, values: seq<Value>)
    requires Plain(host) && Plain(port) && host in env && port !in env
    ensures err == Some(MissingVariable(port))
    ensures values == [Text(env[host]), Zero]
  {
    var registry := new Registry();
    MissingPortOutcomes(env, registry.parsers, host, port);
    err, values := InjectFresh(HostPortFields(host, port), env, registry);
  }

  /** A default is converted by the registered parser when its variable is unset. */
  method DefaultConverted(env: map<string, string>, port: string, dflt: string, atoi: FuncValue)
    returns (err: Option<InjectError>, values: seq<Value>)
    requires Plain(port) && Plain(dflt) && port !in env
    requires TwoResultParser(atoi, IntType) && atoi.call(dflt).err.None?
    ensures err.None?
    ensures values == [atoi.call(dflt).value]
  {
    var registry := RegisterOne(atoi, IntType);
    DefaultConvertedOutcomes(env, registry.parsers, port, dflt);
    err, values := InjectFresh([Exported("Port", IntType, port + "," + dflt)], env, registry);
  }

  /**
    `UseParser` checks only the kind of the parameter and not whether the
    function value is nil, so it accepts parsers that Inject cannot call: one
    taking a named string type, or a typed nil function. Inject then panics
    in `reflect.Value.Call` on the first field that resolves to that type.
  */
  lemma UncallableParserAccepted(p: FuncValue, f: FieldDecl, env: map<string, string>)
    requires WellShaped(p) && (p.isNil || p.params[0] != StringType)
    requires f.typ == p.results[0] && f.typ.kind != String && Resolve(f.tag, env).Found?
    ensures Validate(Function(p)) == None
    ensures Consistent(map[f.typ := p])
    ensures FieldOutcome(f, env, map[f.typ := p]) == Fail(CallPanic(f.typ))
  {
  }

  /** parser_test.go TestOK: `func(string) (int, error)`, then `func(string) int`, both accepted; the later one is kept under `int`. */
  method TestParserOK() returns (first: Option<RegisterError>, second: Option<RegisterError>, final: map<Type, FuncValue>)
    ensures first.None? && second.None?
    ensures final.Keys == {IntType} && final[IntType].params == [StringType] && final[IntType].results == [IntType]
  {
    var registry := new Registry();
    var two := FuncValue([StringType], [IntType, ErrorType], false, s => Returned(Number(1), None));
    first := registry.UseParser(Function(two));
    var one := FuncValue([StringType], [IntType], false, s => Returned(Number(1), None));
    second := registry.UseParser(Function(one));
    final := registry.parsers;
  }

  /** parser_test.go TestNilParser: `nil` is refused with the `NilParser` message. */
  method TestNilParser() returns (err: Option<RegisterError>)
    ensures err == Some(NilParser) && Message(err.value) == NilParserMessage
  {
    var registry := new Registry();
    err := registry.UseParser(Nil);
  }

  /** parser_test.go TestInvalidParserArgument: the non-function `3` is refused, naming its type. */
  method TestInvalidParserArgument() returns (err: Option<RegisterError>)
    ensures err == Some(NotAParser(IntType))
  {
    var registry := new Registry();
    err := registry.UseParser(NonFunc(IntType));
  }

  /** parser_test.go TestInvalidParserFunctionArgument: `func(int) (int, error)` is refused with `InvalidArgument`. */
  method TestInvalidParserFunctionArgument() returns (err: Option<RegisterError>)
    ensures err == Some(InvalidArgument) && Message(err.value) == InvalidArgumentMessage
  {
    var registry := new Registry();
    err := registry.UseParser(Function(FuncValue([IntType], [IntType, ErrorType], false, s => Returned(Number(0), None))));
  }

  /**
    parser_test.go TestInvalidParserFunctionReturnType, its five cases:
    `(int, int, int)` twice, `error` twice and `(int, int)`, each refused
    with `InvalidReturnType`.
  */
  method TestInvalidParserFunctionReturnType() returns (errs: seq<Option<RegisterError>>)
    ensures |errs| == 5
    ensures forall i :: 0 <= i < |errs| ==> errs[i] == Some(InvalidReturnType)
    ensures Message(errs[0].value) == InvalidReturnTypeMessage
  {
    var registry := new Registry();
    var three := FuncValue([StringType], [IntType, IntType, IntType], false, s => Returned(Number(0), None));
    var errOnly := FuncValue([StringType], [ErrorType], false, s => Returned(Zero, None));
    var pair := FuncValue([StringType], [IntType, IntType], false, s => Returned(Number(1), None));
    var e1 := registry.UseParser(Function(three));
    var e2 := registry.UseParser(Function(three));
    var e3 := registry.UseParser(Function(errOnly));
    var e4 := registry.UseParser(Function(errOnly));
    var e5 := registry.UseParser(Function(pair));
    errs := [e1, e2, e3, e4, e5];
  }
}
