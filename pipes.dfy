/**
 * Pipe references, the errors a pipeline can raise, and the dispatch rule
 * that decides, for one pipe and the pipeline's method name, which body runs.
 *
 * A JavaScript pipe is an arbitrary value probed at run time; here it is a
 * tagged variant, and its body is one of a few behaviours, so that what a
 * pipe does with its payload and its `next` continuation can be reasoned about.
 */
module Pipes {

  /** What a pipe's body does when it is called with a payload and `next`. */
  datatype Behaviour<!P> =
    | Forward(f: P -> P)      // returns next(f(payload))
    | Stop(reply: P -> P)     // returns reply(payload); next is never called
    | Raise(reason: string)   // throws

  /**
   * A pipe reference.
   *  - Fn:  an arrow function (a function without a prototype), called directly.
   *  - Obj: an instantiated object; `methods` holds every method it can reach,
   *         its own and its prototype's.
   *  - Cls: anything else: a class, a function with a prototype, or a primitive
   *         such as a string; `methods` holds the properties reachable on the
   *         value itself (static methods).
   */
  datatype Pipe<!P> =
    | Fn(body: Behaviour<P>)
    | Obj(name: string, methods: map<string, Behaviour<P>>)
    | Cls(name: string, methods: map<string, Behaviour<P>>)

  /** The two configuration errors of the dispatch rule, and a pipe's own failure. */
  datatype PipeError =
    | InstantiatedWithoutMethod(pipeName: string)
    | MissingMethod(pipeName: string, methodName: string)
    | Thrown(reason: string)

  /** A call that either returns a value or throws an error. */
  datatype Result<T> = Ok(value: T) | Err(error: PipeError)

  /**
   * The message the source puts in each thrown error, given piece by piece:
   * the pipe's name first; for an instance, the fixed " was instantiated"
   * text; otherwise " does not have a ", the method name and " method".
   */
  function Message(e: PipeError): (r: string)
    ensures e.Thrown? ==> r == e.reason
    ensures !e.Thrown? ==> |r| >= |e.pipeName| && r[..|e.pipeName|] == e.pipeName
    ensures e.InstantiatedWithoutMethod? ==>
              r[|e.pipeName|..] == " was instantiated, but called with static method"
    ensures e.MissingMethod? ==>
              |r| == |e.pipeName| + 17 + |e.methodName| + 7 &&
              r[|e.pipeName|..|e.pipeName| + 17] == " does not have a " &&
              r[|e.pipeName| + 17..|e.pipeName| + 17 + |e.methodName|] == e.methodName &&
              r[|e.pipeName| + 17 + |e.methodName|..] == " method"
  {
    match e
    case InstantiatedWithoutMethod(n) => n + " was instantiated, but called with static method"
    case MissingMethod(n, m) => n + " does not have a " + m + " method"
    case Thrown(reason) => reason
  }

  /**
   * The dispatch rule, first match wins: an arrow function is its own body;
   * an object without the method is an "instantiated" error; any other pipe
   * without the method is a "does not have" error; otherwise the method runs.
   */
  function Resolve<P>(pipe: Pipe<P>, methodName: string): (r: Result<Behaviour<P>>)
    ensures r.Ok? <==> (pipe.Fn? || methodName in pipe.methods)
    ensures pipe.Fn? ==> r == Ok(pipe.body)
    ensures r.Ok? && !pipe.Fn? ==> r.value == pipe.methods[methodName]
    ensures r.Err? ==> !r.error.Thrown? && r.error.pipeName == pipe.name
    ensures r.Err? ==> (r.error.InstantiatedWithoutMethod? <==> pipe.Obj?)
    ensures r.Err? && r.error.MissingMethod? ==> r.error.methodName == methodName
  {
    match pipe
    case Fn(body) => Ok(body)
    case Obj(name, methods) =>
      if methodName in methods then Ok(methods[methodName]) else Err(InstantiatedWithoutMethod(name))
    case Cls(name, methods) =>
      if methodName in methods then Ok(methods[methodName]) else Err(MissingMethod(name, methodName))
  }
}
