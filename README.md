# Adroit web application core, modelled in Dafny

Adroit is a thin HTTP middleware layer for PHP. A `WebApplication` extends a
middleware pipe. It collects user middleware at three seams (before routing,
before the action, before the responder). On the first `run` it assembles the
pipe once, in a fixed order, around three fixed steps: routing, action and
responder. It also offers helpers that build route descriptors and add them to
the router of the routing step. The `ActionExecutorMiddleware` takes the action
that an earlier step stored on the request. It runs three checks (present,
callable, valid result), invokes the action, and passes the result on to the
next middleware under a second request attribute.

The model has six modules:

- `Php` (php.dfy): PHP's nullable values, truthiness, and the `(string)` cast
  that error messages use.
- `ActionExecutor` (action_executor.dfy): the executor as a pure function
  over the request's attribute map. Besides the result, it records the calls
  it made to the action and to the continuation.
- `Pipeline` (pipeline.dfy): the abstract pipe state and its operations,
  including the replay of any sequence of registrations and runs.
- `Routes` (routes.dfy): route descriptors, recorded as they are built.
- `DefaultRouteClass` (route_class.dfy): the check used by
  `setDefaultRouteClass`, both as written and corrected.
- `Application` (web_application.dfy): class `WebApplication`. Its fields
  are the source's fields. Its methods modify them in place, and their
  contracts are stated with the `Pipeline` functions.

Collaborators are parameters or abstractions:

- PHP reflection (`get_parent_class`) is a class table: a map from class name
  to direct parent.
- `is_callable` and the action's behaviour form a `Runtime` value.
- The router's route table is a ghost sequence.
- The continuation is a function value.

Points where the model follows what the code does:

- The executor throws one class, `ActionExecutionException`, for all three
  failures. The model proves that the three messages differ.
- The docblock of `setDefaultRouteClass` declares `@throws
  \ConfigurationException` (WebApplication.php:215), but a rejected class
  raises `\RuntimeException` (WebApplication.php:230). The model raises the
  latter.
- The source's constructor stores the action step in an undeclared property,
  `actionMiddleware`. `initialize` reads that same property, so the model has
  a single field `actionMiddleware`.

## Model

| member | source | states |
|---|---|---|
| `Application.WebApplication.constructor` | src/bitExpert/Adroit/WebApplication.php:87-112 | new application (the state `Pipeline.Fresh()`): not initialized, all three lists empty, pipe empty, no error handler, no default route class, the fixed steps stored as given |
| `Application.WebApplication.SetErrorHandler` | src/bitExpert/Adroit/WebApplication.php:121-125 | records the handler and returns the same object; pipe state, default route class and routes unchanged |
| `Application.WebApplication.BeforeRouting` | src/bitExpert/Adroit/WebApplication.php:134-138 | returns the same object; new state is `Register(old, BeforeRouting, m)`; error handler, default route class and routes unchanged |
| `Application.WebApplication.BeforeAction` | src/bitExpert/Adroit/WebApplication.php:147-151 | the same for the before-action list |
| `Application.WebApplication.BeforeResponder` | src/bitExpert/Adroit/WebApplication.php:160-164 | the same for the before-responder list |
| `Application.WebApplication.Pipe` | src/bitExpert/Adroit/WebApplication.php:186 | the inherited `pipe` adds exactly one entry at the end of the pipe and changes nothing else |
| `Application.WebApplication.PipeAll` | src/bitExpert/Adroit/WebApplication.php:183-188 | the pipe becomes the old pipe followed by the given list, element by element in list order; nothing else changes |
| `Application.WebApplication.Initialize` | src/bitExpert/Adroit/WebApplication.php:194-208 | new state is `Pipeline.Initialize(old, fixed steps)`: the first call appends the whole chain and sets the flag; later calls change nothing |
| `Application.WebApplication.Run` | src/bitExpert/Adroit/WebApplication.php:172-177 | up to invoking the pipe, `run` has the effect of `initialize` |
| `Application.WebApplication.SetDefaultRouteClass` | src/bitExpert/Adroit/WebApplication.php:217-237 | verdict is `Validate(classes, cls, old default)`; accepted sets the default to `cls`; rejected (with the message) or diverging leaves it unchanged; nothing else changes |
| `Application.WebApplication.CreateRoute` | src/bitExpert/Adroit/WebApplication.php:249-260 | the route `Describes` the construction: built by the default route class if one is set, else by `Route`; it carries the given method, path and target, is named, and carries every parameter's matchers in iteration order |
| `Application.WebApplication.AddRoute` | src/bitExpert/Adroit/WebApplication.php:348-352 | the router's table gains exactly this route at its end; returns the same object; nothing else changes |
| `Application.WebApplication.Get` | src/bitExpert/Adroit/WebApplication.php:271-276 | takes (name, path, target); appends exactly one route, a GET route with these arguments; earlier routes kept |
| `Application.WebApplication.Post` | src/bitExpert/Adroit/WebApplication.php:287-292 | the same with POST |
| `Application.WebApplication.Put` | src/bitExpert/Adroit/WebApplication.php:303-308 | the same with PUT |
| `Application.WebApplication.Delete` | src/bitExpert/Adroit/WebApplication.php:319-324 | takes (path, target, name); appends exactly one DELETE route |
| `Application.WebApplication.Options` | src/bitExpert/Adroit/WebApplication.php:335-340 | takes (path, target, name); appends exactly one OPTIONS route |
| `Application.LateRegistration` | src/bitExpert/Adroit/WebApplication.php:194-198 | a client of the class: middleware registered after the first `run` stays in its list but is not in the pipe after a second `run` |
| `Application.DefaultClassBuildsLaterRoutes` | src/bitExpert/Adroit/WebApplication.php:217-260 | a client of the class: once `setDefaultRouteClass` accepts a class, a route added next by `get` is built by that class; otherwise by the default as it was |
| `Pipeline.RegisterAppends` | src/bitExpert/Adroit/WebApplication.php:134-164 | registering appends exactly one middleware to its own seam; the other two lists, the pipe and the flag are unchanged |
| `Pipeline.InitializeBuildsPipe` | src/bitExpert/Adroit/WebApplication.php:194-208 | from an uninitialized state, the new pipe is the old pipe, then before-routing, routing, before-action, action, before-responder, responder; the flag is set; the lists are kept |
| `Pipeline.InitializeIdempotent` | src/bitExpert/Adroit/WebApplication.php:196-198 | an initialized state is a fixed point of `initialize`, so a second call is a no-op |
| `Pipeline.ChainLayout` | src/bitExpert/Adroit/WebApplication.php:200-205 | exact positions in the chain: every before-routing entry precedes routing, which precedes every before-action entry; these precede action, which precedes every before-responder entry; these precede responder, the last entry; each list keeps its order |
| `Pipeline.ReplayRegisters` | src/bitExpert/Adroit/WebApplication.php:134-164 | over any sequence of calls, runs included, each seam's list is its old content followed by the middleware registered there, in call order |
| `Pipeline.BuiltPipeIsFinal` | src/bitExpert/Adroit/WebApplication.php:196-198 | once initialized, no sequence of registrations and runs changes the pipe or clears the flag (the inherited `pipe` does append to it) |
| `Pipeline.RegistrationsDoNotPipe` | src/bitExpert/Adroit/WebApplication.php:134-164 | registrations alone neither pipe anything nor initialize |
| `Pipeline.FirstRunFixesPipe` | src/bitExpert/Adroit/WebApplication.php:172-208 | from a fresh application, after the first `run` and any later registrations and runs, the pipe is exactly the chain of what was registered before that run, while the lists hold everything registered |
| `Pipeline.ReplayConcat` | src/bitExpert/Adroit/WebApplication.php:172-174 | replaying two sequences of calls one after the other is replaying their concatenation |
| `DefaultRouteClass.FirstAncestorIsParent` | src/bitExpert/Adroit/WebApplication.php:222 | the first step of the ancestor chain is what `get_parent_class` returns for the class |
| `DefaultRouteClass.ValidateCases` | src/bitExpert/Adroit/WebApplication.php:217-237 | as written: accepts exactly `Route`, a direct child of `Route`, or a parentless class that is already the default; diverges exactly for a class whose parent is neither missing nor `Route`; a rejection carries the message naming the class and `Route` |
| `DefaultRouteClass.DivergingLoopNeverExits` | src/bitExpert/Adroit/WebApplication.php:222-227 | where the verdict is `Diverges`, the source's loop has not exited after any number of iterations |
| `DefaultRouteClass.HaltingLoopExitsAtOnce` | src/bitExpert/Adroit/WebApplication.php:222-227 | otherwise the loop exits in its first iteration, by `break` exactly when the parent is `Route` |
| `DefaultRouteClass.WalkFindsAncestor` | src/bitExpert/Adroit/WebApplication.php:222-227 | the corrected walk finds `Route` within `fuel` steps exactly when `Route` is an ancestor at most `fuel` steps up |
| `DefaultRouteClass.RouteWithinTable` | src/bitExpert/Adroit/WebApplication.php:222-227 | if `Route` is an ancestor at all, it is one within as many steps as the class table has entries |
| `DefaultRouteClass.InheritsRouteIffAncestor` | src/bitExpert/Adroit/WebApplication.php:219-227 | the corrected check accepts exactly `Route` and the classes with `Route` among their ancestors, at any depth |
| `DefaultRouteClass.AcceptedKeepsSettable` | src/bitExpert/Adroit/WebApplication.php:219-233 | starting from no default, every accepted class is `Route` or a direct child of `Route`, and is a truthy name, so `createRoute` builds with it |
| `DefaultRouteClass.CorrectedAgreesOnSettableDefaults` | src/bitExpert/Adroit/WebApplication.php:217-237 | from any default the as-written check can have set, wherever the source returns it accepts exactly the classes the corrected check accepts |
| `DefaultRouteClass.CorrectedAgreesWhereSourceReturns` | src/bitExpert/Adroit/WebApplication.php:217-237 | wherever the source returns and the class is not already the default, the as-written check and the corrected check accept the same classes |
| `DefaultRouteClass.GrandchildOfRouteDiverges` | src/bitExpert/Adroit/WebApplication.php:222-227 | a grandchild of `Route` inherits `Route`, yet the source never returns for it |
| `ActionExecutor.GetActionReadsActionAttribute` | src/bitExpert/Adroit/Action/Executor/ActionExecutorMiddleware.php:84-87 | `getAction` reads back the value stored under the action attribute fixed at construction; storing any other attribute leaves it unchanged |
| `ActionExecutor.WithAttribute` | src/bitExpert/Adroit/Action/Executor/ActionExecutorMiddleware.php:75 | the new request holds the value under the name; every other attribute is unchanged; the keys gain at most the name |
| `ActionExecutor.Invoke` | src/bitExpert/Adroit/Action/Executor/ActionExecutorMiddleware.php:47-79 | at most one action call, always with the original request and response; at most one continuation call, only after the action, always with the original response; a failure never calls the continuation; without a continuation call the original response is returned |
| `ActionExecutor.MissingActionFails` | src/bitExpert/Adroit/Action/Executor/ActionExecutorMiddleware.php:49-53 | a missing or falsy action fails with "Could not find action in request"; neither the action nor the continuation is called |
| `ActionExecutor.NotCallableFails` | src/bitExpert/Adroit/Action/Executor/ActionExecutorMiddleware.php:55-60 | a truthy but non-callable action fails before any call; the message names the value's class (objects) or string form (others) right after its prefix |
| `ActionExecutor.InvalidResultFails` | src/bitExpert/Adroit/Action/Executor/ActionExecutorMiddleware.php:62-71 | a result that is neither a Payload nor a response fails after exactly one action call; the message names the action and contains both expected class names; the continuation is not called |
| `ActionExecutor.FailsIffACheckFails` | src/bitExpert/Adroit/Action/Executor/ActionExecutorMiddleware.php:49-71 | the step fails exactly when one of the three checks fails (both directions) |
| `ActionExecutor.DelegatesToContinuation` | src/bitExpert/Adroit/Action/Executor/ActionExecutorMiddleware.php:74-78 | when the checks pass and a continuation is given: it is called exactly once, with the result under the payload attribute, every other attribute unchanged, and the original response; its return value is returned; this holds for a Payload or a response result |
| `ActionExecutor.NoContinuationReturnsOriginal` | src/bitExpert/Adroit/Action/Executor/ActionExecutorMiddleware.php:74-78 | when the checks pass and there is no continuation, the original response is returned and any response the action returned is discarded |
| `ActionExecutor.ContinuationCalledIff` | src/bitExpert/Adroit/Action/Executor/ActionExecutorMiddleware.php:74-76 | the continuation is called if and only if every check passes and a continuation is supplied |
| `ActionExecutor.FailureMessagesDiffer` | src/bitExpert/Adroit/Action/Executor/ActionExecutorMiddleware.php:52-70 | the three failure messages are pairwise different, whatever the action |
| `Php.StringCast` | src/bitExpert/Adroit/Action/Executor/ActionExecutorMiddleware.php:58 | `(string)` of a non-object: a string is itself, `true` is "1", `false` and `null` are ""; the cast is a truthy string exactly when the value is truthy |
| `Php.IntToString` | src/bitExpert/Adroit/Action/Executor/ActionExecutorMiddleware.php:58 | a leading minus sign exactly for negative numbers, then digits only; truthy for every non-zero integer |
| `Php.NatToString` | src/bitExpert/Adroit/Action/Executor/ActionExecutorMiddleware.php:58 | non-empty, digits only, no leading zero for a positive number, and one digit exactly below ten |
| `Php.NatToStringValue` | src/bitExpert/Adroit/Action/Executor/ActionExecutorMiddleware.php:58 | the digits of the string denote the number |
| `Php.IntToStringValue` | src/bitExpert/Adroit/Action/Executor/ActionExecutorMiddleware.php:58 | the string is the decimal form of the integer: after the minus sign of a negative number, the digits denote its absolute value |
| `Php.IntToStringInjective` | src/bitExpert/Adroit/Action/Executor/ActionExecutorMiddleware.php:58 | different integers give different strings |

## Findings

| source | as written | input that shows it | evidently intended | confidence | as-written member | corrected member |
|---|---|---|---|---|---|---|
| src/bitExpert/Adroit/WebApplication.php:222-227 | the loop re-evaluates `get_parent_class($defaultRouteClass)` for the same class on every iteration and never moves to the parent's parent | a table where `App\ApiRoute` extends `App\BaseRoute` and `App\BaseRoute` extends `Route`; `setDefaultRouteClass('App\ApiRoute')` never returns | walk up the ancestor chain, accept any class that inherits from `Route`, and reject the others | not executed; high (the loop variable is never reassigned) | `DefaultRouteClass.GrandchildOfRouteDiverges` | `DefaultRouteClass.InheritsRouteIffAncestor` |

The class method `Application.WebApplication.SetDefaultRouteClass` keeps the
behaviour as written, since it models the source. The corrected check
`DefaultRouteClass.InheritsRoute` is proved to agree with it wherever the
source returns and the class is not already the default
(`CorrectedAgreesWhereSourceReturns`). A class that is already the default
and has no parent is accepted as written; that state is never reached from
the initial `null`. Starting from there, every accepted default is `Route` or
a direct child of `Route` (`AcceptedKeepsSettable`). From such a default the
two checks agree wherever the source returns
(`CorrectedAgreesOnSettableDefaults`), so they differ only where the source
diverges.

## Left out

- Executing the assembled pipe (the inherited `__invoke` called by `run`),
  dispatching to the error handler, and emitting the response are left out.
  They belong to the middleware-pipe and emitter libraries, whose code is not
  part of this model. `Application.WebApplication.Run` models only the
  `initialize` part. Its request and response parameters and the emitter
  field (with its default) are omitted.
- The inherited pipe starts empty and `pipe($middleware)` appends one entry.
  This is an assumption about the middleware-pipe library.
- `createDefault` only constructs library objects (a router and the routing,
  resolver and responder middlewares), whose code is not part of this model.
- The router library is not modelled: `Route::create`, `named`, `ifMatches`
  and route matching. A route is a record of its construction. So the effect
  a route-class subclass has by overriding `create` is not captured, nor is
  route lookup by method and path.
- `createRoute`'s matcher array, a PHP associative array, is a sequence of
  (parameter, matchers) pairs in iteration order.
- Type hints such as `callable $middleware` and `Route $route` are checked by
  PHP before a method runs. They are represented only by the types of the
  parameters.
- Exceptions thrown by the action or by the continuation propagate unchanged
  in the source. The model's `Runtime.call` and continuations are total
  functions.
- Floats and arrays are not among the modelled action values. This includes
  callable arrays such as `[$object, 'method']`.
- `Application.WebApplication.SetDefaultRouteClass`: the source loops forever
  for a class whose parent is neither missing nor `Route`. The model returns a
  `Diverges` verdict instead, with the state unchanged (the source never
  returns there).
- The responder interface and the resolver exception class declare no
  behaviour. The Twig responder and the container resolver are not part of
  this model.
