/**
 * The fluent builder. A Pipeline holds the value sent through, the ordered
 * pipe list and the method name used on object and class pipes; the setters
 * overwrite one field in place and return the pipeline itself, and the two
 * terminal calls build the onion from a copy of the list and call it.
 */
module Builder {
  import opened Pipes
  import Onion

  /** A payload: JavaScript `null`, which a new pipeline holds, or a value. */
  datatype Value<V> = Null | Val(v: V)

  class Pipeline<V> {
    var passable: Value<V>
    var pipes: seq<Pipe<Value<V>>>
    var methodName: string

    /** A new pipeline: nothing sent yet, no pipes, method "handle". */
    constructor ()
      ensures passable == Null && pipes == [] && methodName == "handle"
    {
      passable := Null;
      pipes := [];
      methodName := "handle";
    }

    /** Sets the value sent through; the pipes and the method name stay. */
    method Send(value: Value<V>) returns (self: Pipeline<V>)
      modifies this
      ensures self == this
      ensures passable == value && pipes == old(pipes) && methodName == old(methodName)
    {
      passable := value;
      self := this;
    }

    /** Replaces the pipe list with the given one, dropping the earlier pipes. */
    method Through(given: seq<Pipe<Value<V>>>) returns (self: Pipeline<V>)
      modifies this
      ensures self == this
      ensures pipes == given && passable == old(passable) && methodName == old(methodName)
    {
      pipes := given;
      self := this;
    }

    /** Appends pipes: the earlier pipes keep their places and order, the new ones follow. */
    method Pipe(more: seq<Pipe<Value<V>>>) returns (self: Pipeline<V>)
      modifies this
      ensures self == this
      ensures pipes == old(pipes) + more && passable == old(passable) && methodName == old(methodName)
      ensures pipes[..|old(pipes)|] == old(pipes) && pipes[|old(pipes)|..] == more
    {
      pipes := pipes + more;
      self := this;
    }

    /** Sets the method name called on every object and class pipe. */
    method Via(name: string) returns (self: Pipeline<V>)
      modifies this
      ensures self == this
      ensures methodName == name && passable == old(passable) && pipes == old(pipes)
    {
      methodName := name;
      self := this;
    }

    /**
     * Builds the onion from a reversed copy of the pipe list and calls it with
     * the passable. The outcome is Run's, and the pipeline is left as it was,
     * so it can be run again.
     */
    method Then(destination: Onion.Cont<Value<V>>) returns (r: Result<Value<V>>)
      ensures r == Onion.Run(pipes, methodName, destination, passable)
    {
      var onion := Onion.Reduce(Onion.Reverse(pipes), methodName, Onion.PrepareDestination(destination));
      r := onion(passable);
      Onion.ComposeRuns(pipes, methodName, destination, passable);
    }

    /** `Then` with the identity destination. */
    method ThenReturn() returns (r: Result<Value<V>>)
      ensures r == Onion.Run(pipes, methodName, Onion.Identity, passable)
    {
      r := Then(Onion.Identity);
    }
  }
}
