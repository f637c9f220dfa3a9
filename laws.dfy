/**
 * Laws of running a pipe list: order preservation, identity destination,
 * short-circuit, error propagation, dispatch uniformity, and what appending
 * pipes means. All are stated about Run, which ComposeRuns ties to the onion.
 */
module Laws {
  import opened Pipes
  import opened Onion

  /** Under this method name the pipe resolves to a body that calls next(f(payload)). */
  predicate Forwards<P>(pipe: Pipe<P>, methodName: string)
  {
    Resolve(pipe, methodName).Ok? && Resolve(pipe, methodName).value.Forward?
  }

  /** Every pipe of the list forwards. */
  predicate AllForward<P>(pipes: seq<Pipe<P>>, methodName: string)
  {
    forall i :: 0 <= i < |pipes| ==> Forwards(pipes[i], methodName)
  }

  /** The transformation a forwarding pipe applies before calling next. */
  function Transformation<P>(pipe: Pipe<P>, methodName: string): P -> P
    requires Forwards(pipe, methodName)
  {
    Resolve(pipe, methodName).value.f
  }

  /** f_n(... f_1(passable) ...): each forwarding pipe's transformation, in list order. */
  function Transform<P>(pipes: seq<Pipe<P>>, methodName: string, passable: P): P
    requires AllForward(pipes, methodName)
    decreases |pipes|
  {
    if pipes == [] then passable
    else Transform(pipes[1..], methodName, Transformation(pipes[0], methodName)(passable))
  }

  /** Forwarding pipes in sequence: the pipes of `a` act first, then those of `b`. */
  lemma {:induction false} TransformAppend<P>(a: seq<Pipe<P>>, b: seq<Pipe<P>>, methodName: string, passable: P)
    requires AllForward(a, methodName) && AllForward(b, methodName)
    ensures AllForward(a + b, methodName)
    ensures Transform(a + b, methodName, passable) == Transform(b, methodName, Transform(a, methodName, passable))
    decreases |a|
  {
    assert forall i :: 0 <= i < |a + b| ==> (a + b)[i] == if i < |a| then a[i] else b[i - |a|];
    if a == [] {
      assert a + b == b;
    } else {
      assert (a + b)[1..] == a[1..] + b;
      TransformAppend(a[1..], b, methodName, Transformation(a[0], methodName)(passable));
    }
  }

  /** The last pipe's transformation is the outermost one. */
  lemma TransformLastOutermost<P>(pipes: seq<Pipe<P>>, last: Pipe<P>, methodName: string, passable: P)
    requires AllForward(pipes, methodName) && Forwards(last, methodName)
    ensures AllForward(pipes + [last], methodName)
    ensures Transform(pipes + [last], methodName, passable)
         == Transformation(last, methodName)(Transform(pipes, methodName, passable))
  {
    TransformAppend(pipes, [last], methodName, passable);
  }

  /**
   * Order preservation: when every pipe forwards, the destination receives
   * the payload transformed by pipe 1, then pipe 2, ..., then pipe n, and its
   * outcome, value or failure, is the outcome of the whole pipeline.
   */
  lemma {:induction false} OrderPreservation<P>(pipes: seq<Pipe<P>>, methodName: string, destination: Cont<P>, passable: P)
    requires AllForward(pipes, methodName)
    ensures Run(pipes, methodName, destination, passable) == destination(Transform(pipes, methodName, passable))
    decreases |pipes|
  {
    if pipes != [] {
      assert Forwards(pipes[0], methodName);
      OrderPreservation(pipes[1..], methodName, destination, Transformation(pipes[0], methodName)(passable));
    }
  }

  /** With the identity destination, a forwarding pipeline returns the transformed payload. */
  lemma IdentityDestination<P>(pipes: seq<Pipe<P>>, methodName: string, passable: P)
    requires AllForward(pipes, methodName)
    ensures Run(pipes, methodName, Identity, passable) == Ok(Transform(pipes, methodName, passable))
  {
    OrderPreservation(pipes, methodName, Identity, passable);
  }

  /** After a forwarding prefix, the rest of the list runs on the transformed payload. */
  lemma {:induction false} RunAfterPrefix<P>(pipes: seq<Pipe<P>>, methodName: string, destination: Cont<P>, passable: P, k: nat)
    requires k <= |pipes| && AllForward(pipes[..k], methodName)
    ensures Run(pipes, methodName, destination, passable)
         == Run(pipes[k..], methodName, destination, Transform(pipes[..k], methodName, passable))
    decreases k
  {
    if k > 0 {
      assert Forwards(pipes[..k][0], methodName);
      var v := Transformation(pipes[0], methodName)(passable);
      assert pipes[1..][..k - 1] == pipes[..k][1..];
      assert pipes[1..][k - 1..] == pipes[k..];
      RunAfterPrefix(pipes[1..], methodName, destination, v, k - 1);
    }
  }

  /**
   * Running up to and including pipe k, when pipes 1..k-1 forward and pipe k
   * does not: pipes after k and the destination are never consulted, and the
   * outcome is pipe k's own, on the payload the prefix produced.
   */
  lemma HaltsAt<P>(pipes: seq<Pipe<P>>, methodName: string, destination: Cont<P>, passable: P, k: nat,
                   later: seq<Pipe<P>>, otherDestination: Cont<P>)
    requires k < |pipes| && AllForward(pipes[..k], methodName) && !Forwards(pipes[k], methodName)
    ensures AllForward((pipes[..k + 1] + later)[..k], methodName)
    ensures Run(pipes, methodName, destination, passable)
         == Run([pipes[k]], methodName, destination, Transform(pipes[..k], methodName, passable))
    ensures Run(pipes, methodName, destination, passable)
         == Run(pipes[..k + 1] + later, methodName, otherDestination, passable)
  {
    var other := pipes[..k + 1] + later;
    assert other[..k] == pipes[..k];
    var v := Transform(pipes[..k], methodName, passable);
    RunAfterPrefix(pipes, methodName, destination, passable, k);
    RunAfterPrefix(other, methodName, otherDestination, passable, k);
    assert pipes[k..][0] == pipes[k] == other[k..][0];
    assert [pipes[k]][0] == pipes[k];
  }

  /**
   * Short-circuit: if pipe k does not call next, its reply is the result;
   * the pipes after it and the destination play no part.
   */
  lemma ShortCircuit<P>(pipes: seq<Pipe<P>>, methodName: string, destination: Cont<P>, passable: P, k: nat,
                        later: seq<Pipe<P>>, otherDestination: Cont<P>)
    requires k < |pipes| && AllForward(pipes[..k], methodName)
    requires Resolve(pipes[k], methodName).Ok? && Resolve(pipes[k], methodName).value.Stop?
    ensures Run(pipes, methodName, destination, passable)
         == Ok(Resolve(pipes[k], methodName).value.reply(Transform(pipes[..k], methodName, passable)))
    ensures Run(pipes, methodName, destination, passable)
         == Run(pipes[..k + 1] + later, methodName, otherDestination, passable)
  {
    HaltsAt(pipes, methodName, destination, passable, k, later, otherDestination);
  }

  /** A failure thrown by pipe k's own body reaches the caller unchanged. */
  lemma PipeFailurePropagates<P>(pipes: seq<Pipe<P>>, methodName: string, destination: Cont<P>, passable: P, k: nat)
    requires k < |pipes| && AllForward(pipes[..k], methodName)
    requires Resolve(pipes[k], methodName).Ok? && Resolve(pipes[k], methodName).value.Raise?
    ensures Run(pipes, methodName, destination, passable)
         == Err(Thrown(Resolve(pipes[k], methodName).value.reason))
  {
    HaltsAt(pipes, methodName, destination, passable, k, [], destination);
  }

  /**
   * Missing-method detection: the first pipe that lacks the method stops the
   * pipeline with the configuration error naming it (and, for a
   * non-instance, the method), whatever comes after it.
   */
  lemma MissingMethodDetected<P>(pipes: seq<Pipe<P>>, methodName: string, destination: Cont<P>, passable: P, k: nat)
    requires k < |pipes| && AllForward(pipes[..k], methodName)
    requires !pipes[k].Fn? && methodName !in pipes[k].methods
    ensures Run(pipes, methodName, destination, passable)
         == Err(if pipes[k].Obj? then InstantiatedWithoutMethod(pipes[k].name)
                else MissingMethod(pipes[k].name, methodName))
  {
    HaltsAt(pipes, methodName, destination, passable, k, [], destination);
  }

  /** The destination only matters when every pipe forwards. */
  lemma {:induction false} DestinationNeedsAllForward<P>(pipes: seq<Pipe<P>>, methodName: string, d1: Cont<P>, d2: Cont<P>, passable: P)
    requires Run(pipes, methodName, d1, passable) != Run(pipes, methodName, d2, passable)
    ensures AllForward(pipes, methodName)
    decreases |pipes|
  {
    if pipes != [] {
      var f := Transformation(pipes[0], methodName);
      DestinationNeedsAllForward(pipes[1..], methodName, d1, d2, f(passable));
      assert forall i :: 1 <= i < |pipes| ==> pipes[i] == pipes[1..][i - 1];
    }
  }

  /**
   * Two lists whose pipes resolve, position by position, to the same bodies
   * (each under its own pipeline's method name) run identically.
   */
  lemma {:induction false} SameDispatchSameRun<P>(ps: seq<Pipe<P>>, m1: string, qs: seq<Pipe<P>>, m2: string,
                                                  destination: Cont<P>, passable: P)
    requires |ps| == |qs|
    requires forall i :: 0 <= i < |ps| ==> Resolve(ps[i], m1) == Resolve(qs[i], m2)
    ensures Run(ps, m1, destination, passable) == Run(qs, m2, destination, passable)
    decreases |ps|
  {
    if ps != [] {
      assert Resolve(ps[0], m1) == Resolve(qs[0], m2);
      match Resolve(ps[0], m1)
      case Err(e) =>
      case Ok(b) =>
        match b
        case Forward(f) =>
          assert forall i :: 0 <= i < |ps| - 1 ==> ps[1..][i] == ps[i + 1] && qs[1..][i] == qs[i + 1];
          SameDispatchSameRun(ps[1..], m1, qs[1..], m2, destination, f(passable));
        case Stop(reply) =>
        case Raise(reason) =>
    }
  }

  /** The bodies given as arrow functions. */
  function AsFunctions<P>(bodies: seq<Behaviour<P>>): (r: seq<Pipe<P>>)
    ensures |r| == |bodies|
    ensures forall i :: 0 <= i < |r| ==> r[i] == Fn(bodies[i])
  {
    seq(|bodies|, i requires 0 <= i < |bodies| => Fn(bodies[i]))
  }

  /** The bodies given as instances whose only method is `methodName`. */
  function AsInstances<P>(bodies: seq<Behaviour<P>>, names: seq<string>, methodName: string): (r: seq<Pipe<P>>)
    requires |names| == |bodies|
    ensures |r| == |bodies|
    ensures forall i :: 0 <= i < |r| ==> r[i] == Obj(names[i], map[methodName := bodies[i]])
  {
    seq(|bodies|, i requires 0 <= i < |bodies| => Obj(names[i], map[methodName := bodies[i]]))
  }

  /** The bodies given as classes with a static method `methodName`. */
  function AsClasses<P>(bodies: seq<Behaviour<P>>, names: seq<string>, methodName: string): (r: seq<Pipe<P>>)
    requires |names| == |bodies|
    ensures |r| == |bodies|
    ensures forall i :: 0 <= i < |r| ==> r[i] == Cls(names[i], map[methodName := bodies[i]])
  {
    seq(|bodies|, i requires 0 <= i < |bodies| => Cls(names[i], map[methodName := bodies[i]]))
  }

  /**
   * Dispatch-variant equivalence: the same bodies as arrow functions (under
   * any method name), as instances or as classes exposing the pipeline's
   * method name, give the same outcome.
   */
  lemma VariantEquivalence<P>(bodies: seq<Behaviour<P>>, names: seq<string>, anyName: string, methodName: string,
                              destination: Cont<P>, passable: P)
    requires |names| == |bodies|
    ensures Run(AsFunctions(bodies), anyName, destination, passable)
         == Run(AsInstances(bodies, names, methodName), methodName, destination, passable)
    ensures Run(AsFunctions(bodies), anyName, destination, passable)
         == Run(AsClasses(bodies, names, methodName), methodName, destination, passable)
  {
    var fns := AsFunctions(bodies);
    var objs := AsInstances(bodies, names, methodName);
    var clss := AsClasses(bodies, names, methodName);
    assert forall i :: 0 <= i < |fns| ==> Resolve(fns[i], anyName) == Ok(bodies[i]) == Resolve(objs[i], methodName);
    assert forall i :: 0 <= i < |fns| ==> Resolve(fns[i], anyName) == Ok(bodies[i]) == Resolve(clss[i], methodName);
    SameDispatchSameRun(fns, anyName, objs, methodName, destination, passable);
    SameDispatchSameRun(fns, anyName, clss, methodName, destination, passable);
  }
}
