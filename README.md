# pipeline.js, modelled in Dafny

`Pipeline` threads a value (the *passable*) through an ordered list of pipes,
Laravel-middleware style, and ends in a destination callback. A pipeline is a
fluent builder with three fields: `passable` (initially `null`), `pipes` (an
ordered list) and `method` (the name called on object and class pipes,
`"handle"` by default). `send`, `through`, `pipe` and `via` overwrite one field
and return the pipeline. The terminal call `then(destination)` copies the pipe
list, reverses it and folds it into nested continuations (the "onion"). Then it
calls the outermost continuation with the passable. So pipe 1 runs first, and
each pipe decides whether to call `next`, and with what value. `thenReturn()`
is `then` with the identity destination.

The model has five modules:

- `Pipes` (pipes.dfy): pipe references and the dispatch rule. A pipe is a
  tagged variant: `Fn` is any function without a `prototype` (an arrow
  function, a method shorthand, a bound or an async function), `Obj` an
  instance and `Cls` anything else (a class, a function with a prototype,
  or a primitive such as a string). Its body is a `Behaviour`:
  - `Forward(f)` calls `next(f(v))`;
  - `Stop(reply)` returns `reply(v)` without calling `next`;
  - `Raise(reason)` throws.

  Exceptions become a `Result`. The two configuration errors are tags that
  carry the pipe's name, and `Message` gives their exact texts.
- `Onion` (onion.dfy): the terminal-call algorithm as the source writes it.
  `Compose` is `Reduce(Reverse(pipes), …, PrepareDestination(destination))`,
  with `Carry`/`Step` for one layer and `HandleException` rethrowing. Beside it
  is `Run`, a direct recursive definition of what running the pipes means.
  `ComposeRuns` proves that the onion computes exactly `Run`.
- `Laws` (laws.dfy): order preservation, the identity destination,
  short-circuit, failure propagation, missing-method detection, and
  equivalence of the dispatch variants.
- `Builder` (pipeline.dfy): the `Pipeline` class. Its fields are updated in
  place by `Send`, `Through`, `Pipe` and `Via`, each of which returns the
  pipeline itself. `Then` and `ThenReturn` have no `modifies` clause, so a
  run leaves the pipeline unchanged and it can be run again.
- `Scenarios` (scenarios.dfy): the repository's usage scenarios, replayed on
  the class. String payloads go through appending pipes to `"foo bar"`, and
  upper-casing gives `"FOO BAR"`. They cover arrow functions, instances,
  classes and `via`. Two further methods, not taken from the repository,
  illustrate the two missing-method errors of the dispatch rule.

The payload type is generic in the pure modules. The class uses
`Value<V> = Null | Val(v)`, so a new pipeline can hold JavaScript's `null`.

## Model

| member | source | states |
|---|---|---|
| `Pipes.Resolve` | index.js:108-116 | first match wins: a function without a prototype is called directly whatever the method name; a pipe resolves iff it is such a function or has the method; a missing method on an instance gives the "was instantiated" error and on any other pipe the "does not have" error, both naming the pipe, the latter also the method |
| `Onion.Reverse` | index.js:65-67 | the copy the fold runs over has the same length and holds the pipes in reverse order |
| `Pipes.Message` | index.js:111-113 | each configuration error's text starts with the pipe's name; the instance error continues with " was instantiated, but called with static method"; the other continues with " does not have a ", the method name and " method"; a pipe's own error keeps its text |
| `Onion.CarryRethrows` | index.js:105-121 | a layer of the onion, called with a payload, gives the dispatch error unchanged, or else exactly what the chosen body returns or throws with the layer below as `next`: catching and rethrowing through `#handleException` (index.js:117-119, 130-132) changes nothing |
| `Onion.Compose` | index.js:65-70 | the reversed-and-reduced onion has the wrapped destination innermost and the first pipe as its outermost layer, around the onion the same fold builds from the remaining pipes |
| `Onion.PrepareDestinationTransparent` | index.js:90-98 | the wrapped destination returns or throws exactly what the destination does |
| `Onion.ReduceSnoc` | index.js:68-70 | folding with the reducer, a pipe at the end of the reversed list becomes the outermost layer |
| `Onion.ComposeRuns` | index.js:64-73 | the continuation built by reversing and reducing the pipes, called with a payload, computes exactly Run: pipe 1 dispatched first, each forwarding pipe handing its transformed payload on, a stopping pipe's reply or any error ending the run, the destination last |
| `Laws.TransformAppend` | index.js:64-73 | for forwarding pipes, the transformation of a concatenation is the first list's transformation followed by the second's |
| `Laws.TransformLastOutermost` | index.js:64-73 | the last pipe's transformation is applied last, outermost |
| `Laws.OrderPreservation` | index.js:64-73 | when every pipe forwards, the result is the destination applied to f_n(…f_1(v)…), including a failure the destination throws |
| `Laws.IdentityDestination` | index.js:80-82 | with the identity destination, a forwarding pipeline returns the transformed payload |
| `Laws.RunAfterPrefix` | index.js:105-120 | after a forwarding prefix of k pipes, the run continues with the remaining pipes on the prefix's output |
| `Laws.HaltsAt` | index.js:106-109 | if pipes 1..k-1 forward and pipe k does not, the outcome is pipe k's alone, the same for any later pipes and any destination |
| `Laws.ShortCircuit` | index.js:106-109 | a pipe that does not call next makes its reply the result; later pipes and the destination play no part |
| `Laws.PipeFailurePropagates` | index.js:117-119 | an error thrown by a pipe's body reaches the caller unchanged |
| `Laws.MissingMethodDetected` | index.js:110-114 | the first pipe lacking the method ends the run with the error naming it: "was instantiated" for an instance, "does not have a … method" for any other pipe |
| `Laws.DestinationNeedsAllForward` | index.js:68-72 | the destination can only affect the outcome when every pipe forwards |
| `Laws.SameDispatchSameRun` | index.js:116 | two pipe lists that resolve position by position to the same bodies, each under its own method name, run to the same outcome |
| `Laws.VariantEquivalence` | index.js:108-116 | the same bodies given as arrow functions, as instances or as classes exposing the configured method name give the same outcome |
| `Builder.Pipeline.constructor` | index.js:2-6 | a new pipeline holds null, no pipes and the method name "handle" |
| `Builder.Pipeline.Send` | index.js:14-18 | replaces the passable only and returns the same pipeline |
| `Builder.Pipeline.Through` | index.js:26-30 | replaces the whole pipe list and nothing else |
| `Builder.Pipeline.Pipe` | index.js:38-44 | appends: the earlier pipes keep their places and order and the new ones follow |
| `Builder.Pipeline.Via` | index.js:52-56 | changes only the method name |
| `Builder.Pipeline.Then` | index.js:64-73 | the outcome of the onion built from the fields is Run of the pipes, method name, destination and passable; the pipeline is not modified |
| `Builder.Pipeline.ThenReturn` | index.js:80-82 | the outcome is Run with the identity destination |
| `Scenarios.FooBar` | index.test.js:9-10 | two pipes resolving to the appending bodies hand "foo bar" to the destination |
| `Scenarios.ChainPipes` | index.test.js:4-14 | pipes added one at a time return "foo bar" |
| `Scenarios.ArrayOfPipes` | index.test.js:16-28 | the same pipes given as one list return "foo bar" |
| `Scenarios.InstancePipes` | index.test.js:30-53 | instances with `handle` return "foo bar" |
| `Scenarios.InstancePipesVia` | index.test.js:55-79 | instances with `transform`, chosen by via, return "foo bar" |
| `Scenarios.StaticPipes` | index.test.js:81-104 | classes with a static `handle` return "foo bar" |
| `Scenarios.StaticPipesVia` | index.test.js:106-130 | classes with a static `transform`, chosen by via, return "foo bar" |
| `Scenarios.PipeMethodVia` | index.test.js:132-154 | instances with a `pipe` method, added one at a time and chosen by via, return "foo bar" |
| `Scenarios.ThenWithCallback` | index.test.js:156-165 | the upper-casing destination returns "FOO BAR" |
| `Scenarios.MissingInstanceMethod` | index.js:110-111 | instances without the configured method give the "was instantiated" error for the first one, and a second run gives the same |
| `Scenarios.MissingStaticMethod` | index.js:112-113 | a class without the method gives the "does not have a handle method" error naming it |

## Left out

- The `arguments` and variadic mechanics of `through` and `pipe` are not
  modelled: both take the resulting list. The source checks `Array.isArray`
  on the first argument only. So `through([a], b)` keeps `[a]` and drops `b`,
  and an array in a later position becomes a pipe of its own. Array and
  variadic forms give the same list only when the variadic form does not
  start with an array.
- JavaScript reflection is replaced by the pipe's tag and a `methodName in
  methods` test. This covers `typeof`, `.prototype`, `constructor.name`, the
  `??` name fallback and the truthiness test of `pipe[method]`. A method
  property that is present but falsy (`0`, `""`, `null`, `false`) fails that
  test and gives the configuration error, as a name absent from `methods`
  does. Not modelled: a truthy property that cannot be called, which throws
  a `TypeError` at index.js:116, and `null` or `undefined` given as a pipe,
  which throws a `TypeError` when its property is read: at index.js:110 for `null`
  (`typeof null` is `'object'`), at index.js:112 for `undefined`.
- Pipes are not arbitrary closures: a body is `Forward`, `Stop` or `Raise`.
  Not modelled: a pipe that calls `next` more than once, post-processes what
  `next` returns, or catches the errors `next` throws.
- Each body fixes, per pipe, whether it forwards, stops or throws. A pipe
  that chooses from its payload (`v.ok ? next(v) : denied`) is captured run
  by run, by the fixed choice it makes on the one payload it sees. The laws
  that quantify over payloads (`Laws.TransformAppend`,
  `Laws.DestinationNeedsAllForward` and the rest) cover only pipes whose
  choice does not depend on the payload.
- The destination is a total Dafny function from payload to `Result`. A
  throwing destination is one that returns `Err`.
- The nested `try`/`catch` blocks are modelled as `Result` propagation.
  Every layer's `catch` (index.js:94-95, 117-118), not only the
  destination's, hands errors to `#handleException`; since that handler
  rethrows, the model propagates them unchanged.
- Asynchronous pipes returning promises are not modelled. The fold treats a
  promise like any other return value.
- `through` stores the caller's array by reference, so a caller that later
  mutates that array changes the pipeline. The model stores the list as a
  value, so this aliasing is not captured.
