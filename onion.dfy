/**
 * The "onion": how a terminal call turns the pipe list into one continuation.
 *
 * Compose follows the source step by step: copy the list, reverse it, and
 * fold it from the destination outward with Carry, so that the first pipe
 * ends up outermost. Run is an independent, direct definition of what that
 * continuation computes, pipe 1 first; ComposeRuns proves the two agree.
 */
module Onion {
  import opened Pipes

  /** A continuation: the rest of the chain, from a payload to its outcome. */
  type Cont<!P> = P -> Result<P>

  /** The list reversed, as `Array.prototype.reverse` leaves it. */
  function Reverse<T>(s: seq<T>): (r: seq<T>)
    ensures |r| == |s|
    ensures forall i :: 0 <= i < |s| ==> r[i] == s[|s| - 1 - i]
  {
    if s == [] then [] else Reverse(s[1..]) + [s[0]]
  }

  /** The single interception point for failures: it rethrows what it is given. */
  function HandleException<P>(passable: P, e: PipeError): Result<P>
  {
    Err(e)
  }

  /** The innermost continuation: the destination, with its failures handed to HandleException. */
  function PrepareDestination<P>(destination: Cont<P>): Cont<P>
  {
    v => match destination(v)
         case Ok(r) => Ok(r)
         case Err(e) => HandleException(v, e)
  }

  /** Wrapping the destination changes nothing: what it returns or throws reaches the caller as is. */
  lemma PrepareDestinationTransparent<P>(destination: Cont<P>, passable: P)
    ensures PrepareDestination(destination)(passable) == destination(passable)
  {
  }

  /** A behaviour called with a payload and its `next` continuation. */
  function Invoke<P>(b: Behaviour<P>, passable: P, next: Cont<P>): Result<P>
  {
    match b
    case Forward(f) => next(f(passable))
    case Stop(reply) => Ok(reply(passable))
    case Raise(reason) => Err(Thrown(reason))
  }

  /**
   * One layer of the onion called with a payload: dispatch on the pipe, call
   * the chosen body with `stack` as `next`, and hand any failure, from the
   * dispatch checks or from the body, to HandleException.
   */
  function Step<P>(pipe: Pipe<P>, methodName: string, stack: Cont<P>, passable: P): Result<P>
  {
    match Resolve(pipe, methodName)
    case Err(e) => HandleException(passable, e)
    case Ok(b) =>
      var o := Invoke(b, passable, stack);
      if o.Err? then HandleException(passable, o.error) else o
  }

  /** The reducer: wrap the continuation built so far in one more pipe. */
  function Carry<P>(methodName: string, stack: Cont<P>, pipe: Pipe<P>): Cont<P>
  {
    passable => Step(pipe, methodName, stack, passable)
  }

  /**
   * Catching and rethrowing in a layer changes nothing: the layer's outcome
   * is the dispatch error, or else exactly what the chosen body returns or
   * throws when called with the payload and the continuation below it.
   */
  lemma CarryRethrows<P>(methodName: string, stack: Cont<P>, pipe: Pipe<P>, passable: P)
    ensures Step(pipe, methodName, stack, passable)
         == match Resolve(pipe, methodName)
            case Err(e) => Err(e)
            case Ok(b) => Invoke(b, passable, stack)
    ensures Carry(methodName, stack, pipe)(passable) == Step(pipe, methodName, stack, passable)
  {
  }

  /** `Array.prototype.reduce` with Carry, a left fold. */
  function Reduce<P>(pipes: seq<Pipe<P>>, methodName: string, acc: Cont<P>): Cont<P>
  {
    if pipes == [] then acc else Reduce(pipes[1..], methodName, Carry(methodName, acc, pipes[0]))
  }

  /** The destination `thenReturn` supplies: the payload itself. */
  function Identity<P>(passable: P): Result<P>
  {
    Ok(passable)
  }

  /**
   * The continuation a terminal call builds and then calls with the passable:
   * the wrapped destination is the innermost layer and the first pipe the
   * outermost one, around the onion of the remaining pipes.
   */
  function Compose<P>(pipes: seq<Pipe<P>>, methodName: string, destination: Cont<P>): (k: Cont<P>)
    ensures pipes == [] ==> k == PrepareDestination(destination)
    ensures pipes != [] ==>
              k == Carry(methodName, Reduce(Reverse(pipes[1..]), methodName, PrepareDestination(destination)), pipes[0])
  {
    if pipes != [] then
      assert Reverse(pipes) == Reverse(pipes[1..]) + [pipes[0]];
      ReduceSnoc(Reverse(pipes[1..]), methodName, PrepareDestination(destination), pipes[0]);
      Reduce(Reverse(pipes), methodName, PrepareDestination(destination))
    else
      Reduce(Reverse(pipes), methodName, PrepareDestination(destination))
  }

  /**
   * What running the pipes on a payload means: the first pipe is dispatched
   * first; a forwarding pipe hands its transformed payload to the rest; a
   * stopping pipe's reply is the result; any error is the result; with no
   * pipes left, the destination decides.
   */
  function Run<P>(pipes: seq<Pipe<P>>, methodName: string, destination: Cont<P>, passable: P): Result<P>
    decreases |pipes|
  {
    if pipes == [] then destination(passable)
    else
      match Resolve(pipes[0], methodName)
      case Err(e) => Err(e)
      case Ok(Forward(f)) => Run(pipes[1..], methodName, destination, f(passable))
      case Ok(Stop(reply)) => Ok(reply(passable))
      case Ok(Raise(reason)) => Err(Thrown(reason))
  }

  /** Folding one more pipe at the end of the reversed list wraps the whole fold. */
  lemma {:induction false} ReduceSnoc<P>(pipes: seq<Pipe<P>>, methodName: string, acc: Cont<P>, pipe: Pipe<P>)
    ensures Reduce(pipes + [pipe], methodName, acc) == Carry(methodName, Reduce(pipes, methodName, acc), pipe)
    decreases |pipes|
  {
    if pipes == [] {
      assert [] + [pipe] == [pipe];
      assert [pipe][1..] == [];
    } else {
      assert (pipes + [pipe])[1..] == pipes[1..] + [pipe];
      ReduceSnoc(pipes[1..], methodName, Carry(methodName, acc, pipes[0]), pipe);
    }
  }

  /** The onion the source builds computes exactly Run. */
  lemma {:induction false} ComposeRuns<P>(pipes: seq<Pipe<P>>, methodName: string, destination: Cont<P>, passable: P)
    ensures Compose(pipes, methodName, destination)(passable) == Run(pipes, methodName, destination, passable)
    decreases |pipes|
  {
    if pipes == [] {
      assert Compose(pipes, methodName, destination) == PrepareDestination(destination);
      PrepareDestinationTransparent(destination, passable);
    } else {
      var rest := pipes[1..];
      CarryRethrows(methodName, Compose(rest, methodName, destination), pipes[0], passable);
      match Resolve(pipes[0], methodName)
      case Err(e) =>
      case Ok(b) =>
        match b
        case Forward(f) => ComposeRuns(rest, methodName, destination, f(passable));
        case Stop(reply) =>
        case Raise(reason) =>
    }
  }
}
