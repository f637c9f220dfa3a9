/**
 * The repository's usage scenarios, replayed against the builder: string
 * payloads, pipes that append to the string, and the two destinations the
 * scenarios use (identity and upper-casing). The last two methods are not
 * among them: they illustrate the two missing-method errors of the dispatch
 * rule.
 */
module Scenarios {
  import opened Pipes
  import opened Onion
  import opened Builder

  /** The string a value turns into under JavaScript's `+` with a string. */
  function Show(v: Value<string>): string
  {
    match v
    case Null => "null"
    case Val(s) => s
  }

  /** The body `(value, next) => next(value + suffix)`. */
  function Append(suffix: string): Behaviour<Value<string>>
  {
    Forward(v => Val(Show(v) + suffix))
  }

  function UpperChar(c: char): char
  {
    if 'a' <= c <= 'z' then (c as int - 'a' as int + 'A' as int) as char else c
  }

  /** `toUpperCase` on ASCII letters. */
  function Upper(s: string): (r: string)
    ensures |r| == |s|
    ensures forall i :: 0 <= i < |s| ==> r[i] == UpperChar(s[i])
  {
    if s == [] then [] else [UpperChar(s[0])] + Upper(s[1..])
  }

  /** The destination `value => value.toUpperCase()`; on `null` it throws. */
  function UpperDestination(v: Value<string>): Result<Value<string>>
  {
    match v
    case Null => Err(Thrown("TypeError: Cannot read properties of null (reading 'toUpperCase')"))
    case Val(s) => Ok(Val(Upper(s)))
  }

  /**
   * Any two pipes that resolve to the two appending bodies turn "foo" into
   * "foo bar" before the destination sees it.
   */
  lemma FooBar(pipes: seq<Pipe<Value<string>>>, methodName: string, destination: Cont<Value<string>>)
    requires |pipes| == 2
    requires Resolve(pipes[0], methodName) == Ok(Append(" ")) && Resolve(pipes[1], methodName) == Ok(Append("bar"))
    ensures Run(pipes, methodName, destination, Val("foo")) == destination(Val("foo bar"))
  {
    var rest := pipes[1..];
    assert rest[0] == pipes[1] && rest[1..] == [];
    assert Show(Val("foo")) + " " == "foo ";
    assert Append(" ").f(Val("foo")) == Val("foo ");
    assert Show(Val("foo ")) + "bar" == "foo bar";
    assert Append("bar").f(Val("foo ")) == Val("foo bar");
    assert Run(rest, methodName, destination, Val("foo ")) == Run(rest[1..], methodName, destination, Val("foo bar"));
  }

  /** Two arrow-function pipes added one at a time, run with thenReturn. */
  method ChainPipes() returns (r: Result<Value<string>>)
    ensures r == Ok(Val("foo bar"))
  {
    var p := new Pipeline<string>();
    p := p.Send(Val("foo"));
    p := p.Pipe([Fn(Append(" "))]);
    p := p.Pipe([Fn(Append("bar"))]);
    assert p.pipes == [Fn(Append(" ")), Fn(Append("bar"))];
    FooBar(p.pipes, p.methodName, Identity);
    r := p.ThenReturn();
  }

  /** The same two pipes given as one list. */
  method ArrayOfPipes() returns (r: Result<Value<string>>)
    ensures r == Ok(Val("foo bar"))
  {
    var p := new Pipeline<string>();
    p := p.Send(Val("foo"));
    p := p.Through([Fn(Append(" ")), Fn(Append("bar"))]);
    FooBar(p.pipes, p.methodName, Identity);
    r := p.ThenReturn();
  }

  /** Instances with a `handle` method. */
  method InstancePipes() returns (r: Result<Value<string>>)
    ensures r == Ok(Val("foo bar"))
  {
    var p := new Pipeline<string>();
    p := p.Send(Val("foo"));
    p := p.Through([Obj("PipeOne", map["handle" := Append(" ")]), Obj("PipeTwo", map["handle" := Append("bar")])]);
    FooBar(p.pipes, p.methodName, Identity);
    r := p.ThenReturn();
  }

  /** Instances with a `transform` method, selected with via. */
  method InstancePipesVia() returns (r: Result<Value<string>>)
    ensures r == Ok(Val("foo bar"))
  {
    var p := new Pipeline<string>();
    p := p.Send(Val("foo"));
    p := p.Via("transform");
    p := p.Through([Obj("PipeOne", map["transform" := Append(" ")]), Obj("PipeTwo", map["transform" := Append("bar")])]);
    FooBar(p.pipes, p.methodName, Identity);
    r := p.ThenReturn();
  }

  /** Classes with a static `handle` method. */
  method StaticPipes() returns (r: Result<Value<string>>)
    ensures r == Ok(Val("foo bar"))
  {
    var p := new Pipeline<string>();
    p := p.Send(Val("foo"));
    p := p.Through([Cls("PipeOne", map["handle" := Append(" ")]), Cls("PipeTwo", map["handle" := Append("bar")])]);
    FooBar(p.pipes, p.methodName, Identity);
    r := p.ThenReturn();
  }

  /** Classes with a static `transform` method, selected with via. */
  method StaticPipesVia() returns (r: Result<Value<string>>)
    ensures r == Ok(Val("foo bar"))
  {
    var p := new Pipeline<string>();
    p := p.Send(Val("foo"));
    p := p.Via("transform");
    p := p.Through([Cls("PipeOne", map["transform" := Append(" ")]), Cls("PipeTwo", map["transform" := Append("bar")])]);
    FooBar(p.pipes, p.methodName, Identity);
    r := p.ThenReturn();
  }

  /** Instances with a `pipe` method, selected with via and added one at a time. */
  method PipeMethodVia() returns (r: Result<Value<string>>)
    ensures r == Ok(Val("foo bar"))
  {
    var p := new Pipeline<string>();
    p := p.Send(Val("foo"));
    p := p.Via("pipe");
    p := p.Pipe([Obj("PipeOne", map["pipe" := Append(" ")])]);
    p := p.Pipe([Obj("PipeTwo", map["pipe" := Append("bar")])]);
    assert p.pipes == [Obj("PipeOne", map["pipe" := Append(" ")]), Obj("PipeTwo", map["pipe" := Append("bar")])];
    FooBar(p.pipes, p.methodName, Identity);
    r := p.ThenReturn();
  }

  /** Two arrow-function pipes run with an upper-casing destination. */
  method ThenWithCallback() returns (r: Result<Value<string>>)
    ensures r == Ok(Val("FOO BAR"))
  {
    var p := new Pipeline<string>();
    p := p.Send(Val("foo"));
    p := p.Pipe([Fn(Append(" "))]);
    p := p.Pipe([Fn(Append("bar"))]);
    FooBar(p.pipes, p.methodName, UpperDestination);
    r := p.Then(UpperDestination);
    assert Upper("foo bar") == "FOO BAR";
  }

  /**
   * Instances that only have `handle`, run with via("transform"): the first
   * one stops the pipeline with the "was instantiated" error. Running the
   * same pipeline a second time gives the same outcome.
   */
  method MissingInstanceMethod() returns (r: Result<Value<string>>)
    ensures r == Err(InstantiatedWithoutMethod("PipeOne"))
  {
    var p := new Pipeline<string>();
    p := p.Send(Val("foo"));
    p := p.Via("transform");
    p := p.Through([Obj("PipeOne", map["handle" := Append(" ")]), Obj("PipeTwo", map["handle" := Append("bar")])]);
    r := p.ThenReturn();
    var again := p.ThenReturn();
    assert again == r;
  }

  /** A class without the static method: the "does not have" error names it and the method. */
  method MissingStaticMethod() returns (r: Result<Value<string>>)
    ensures r == Err(MissingMethod("PipeOne", "handle"))
  {
    var p := new Pipeline<string>();
    p := p.Send(Val("foo"));
    p := p.Through([Cls("PipeOne", map["transform" := Append(" ")])]);
    r := p.ThenReturn();
  }
}
