/**
 * The action executor middleware: it takes the action a previous step stored
 * on the request, checks it, invokes it with the request and the response,
 * checks what it returned, and hands the result on to the next middleware
 * under a second request attribute.
 *
 * `__invoke` only reads its two configured attribute names and builds a new
 * request with `withAttribute`, so the step is modelled as a function. What
 * the step does to its collaborators is part of its result: the calls it
 * made to the action and to the continuation, in order.
 */
module ActionExecutor {
  import opened Php

  /** A PSR-7 server request, as far as this step uses it: its attributes. */
  datatype Request = Request(attributes: map<string, Value>)

  /** A PSR-7 response is an object value; the step passes it on or returns it. */
  type Response = Value

  /** `getAttribute($name)`: the stored value, or `null` when there is none. */
  function GetAttribute(request: Request, name: string): (v: Value)
    ensures name in request.attributes ==> v == request.attributes[name]
    ensures name !in request.attributes ==> v == Null
  {
    if name in request.attributes then request.attributes[name] else Null
  }

  /** `withAttribute($name, $value)`: a new request; the original is left as it was. */
  function WithAttribute(request: Request, name: string, value: Value): (r: Request)
    ensures GetAttribute(r, name) == value
    ensures forall k :: k != name ==> GetAttribute(r, k) == GetAttribute(request, k)
    ensures r.attributes.Keys == request.attributes.Keys + {name}
  {
    Request(request.attributes[name := value])
  }

  /**
   * What an action returned, classified the way `instanceof` classifies it:
   * a domain Payload, a PSR-7 response, or anything else.
   */
  datatype Returned =
    | PayloadOut(value: Value)
    | ResponseOut(value: Value)
    | Other(value: Value)

  /**
   * The parts of the PHP runtime the step consults about the action:
   * whether `is_callable` holds of a value, and what calling it with a
   * request and a response returns.
   */
  datatype Runtime = Runtime(
    isCallable: Value -> bool,
    call: (Value, Request, Response) -> Returned)

  /** The continuation `$next`, when one is supplied. */
  type Continuation = (Request, Response) -> Response

  /** The only exception class the step throws. */
  datatype Exception = ActionExecutionException(message: string)

  /** One call made by the step to a collaborator, with its arguments. */
  datatype Call = Call(request: Request, response: Response)

  datatype Result = Returns(response: Response) | Throws(exception: Exception)

  /** The step's result, and the calls it made to the action and to the continuation. */
  datatype Outcome = Outcome(result: Result, actionCalls: seq<Call>, nextCalls: seq<Call>)

  /** The two attribute names fixed when the middleware is constructed. */
  datatype ActionExecutorMiddleware = ActionExecutorMiddleware(
    actionAttribute: string,
    domainPayloadAttribute: string)

  const PayloadClass := "bitExpert\\Adroit\\Domain\\Payload"
  const ResponseInterfaceClass := "Psr\\Http\\Message\\ResponseInterface"

  const MissingActionMessage := "Could not find action in request"
  const NotCallablePrefix := "Could not execute action \""
  const InvalidResultPrefix := "The action \""

  /** How an error message names the action: its class for an object, its string form otherwise. */
  function Describe(action: Value): (s: string)
    ensures action.Obj? ==> s == action.cls
    ensures !action.Obj? ==> s == StringCast(action)
  {
    if action.Obj? then action.cls else StringCast(action)
  }

  function NotCallableMessage(action: Value): string {
    NotCallablePrefix + Describe(action) + "\" because it is not callable"
  }

  function InvalidResultMessage(action: Value): string {
    InvalidResultPrefix + Describe(action) + "\" did neither return an instance of \""
      + PayloadClass + "\" nor an instance of \"" + ResponseInterfaceClass + "\""
  }

  /** `getAction`: the value stored under the configured action attribute. */
  function GetAction(m: ActionExecutorMiddleware, request: Request): (action: Value)
    ensures m.actionAttribute in request.attributes ==> action == request.attributes[m.actionAttribute]
    ensures m.actionAttribute !in request.attributes ==> action == Null
  {
    GetAttribute(request, m.actionAttribute)
  }

  /**
   * `getAction` reads back what was stored under the action attribute, and
   * storing any other attribute, such as the payload the continuation
   * receives, leaves the action as it was.
   */
  lemma GetActionReadsActionAttribute(m: ActionExecutorMiddleware, request: Request, name: string, v: Value)
    ensures GetAction(m, WithAttribute(request, m.actionAttribute, v)) == v
    ensures name != m.actionAttribute ==> GetAction(m, WithAttribute(request, name, v)) == GetAction(m, request)
  {
  }

  /** The request the continuation receives: the action's result stored under the payload attribute. */
  function ForwardedRequest(m: ActionExecutorMiddleware, request: Request, result: Value): Request {
    WithAttribute(request, m.domainPayloadAttribute, result)
  }

  /** `__invoke($request, $response, $next)`. */
  function Invoke(
    m: ActionExecutorMiddleware,
    request: Request,
    response: Response,
    next: Option<Continuation>,
    runtime: Runtime): (o: Outcome)
    ensures |o.actionCalls| <= 1 && |o.nextCalls| <= 1
    ensures o.actionCalls != [] ==> o.actionCalls[0] == Call(request, response)
    ensures o.nextCalls != [] ==> o.actionCalls != [] && o.nextCalls[0].response == response
    ensures o.result.Returns? && o.nextCalls == [] ==> o.result.response == response
    ensures o.result.Throws? ==> o.nextCalls == []
  {
    var action := GetAction(m, request);
    if !Truthy(action) then
      Outcome(Throws(ActionExecutionException(MissingActionMessage)), [], [])
    else if !runtime.isCallable(action) then
      Outcome(Throws(ActionExecutionException(NotCallableMessage(action))), [], [])
    else
      var returned := runtime.call(action, request, response);
      var actionCalls := [Call(request, response)];
      if returned.Other? then
        Outcome(Throws(ActionExecutionException(InvalidResultMessage(action))), actionCalls, [])
      else
        match next
        case Some(continuation) =>
          var forwarded := ForwardedRequest(m, request, returned.value);
          Outcome(Returns(continuation(forwarded, response)), actionCalls, [Call(forwarded, response)])
        case None =>
          Outcome(Returns(response), actionCalls, [])
  }

  /** The three checks all pass: a truthy, callable action that returned a Payload or a response. */
  predicate Passes(m: ActionExecutorMiddleware, request: Request, response: Response, runtime: Runtime) {
    var action := GetAction(m, request);
    Truthy(action) && runtime.isCallable(action) && !runtime.call(action, request, response).Other?
  }

  /** A missing or falsy action fails first; neither the action nor the continuation is called. */
  lemma MissingActionFails(
    m: ActionExecutorMiddleware, request: Request, response: Response,
    next: Option<Continuation>, runtime: Runtime)
    requires !Truthy(GetAction(m, request))
    ensures Invoke(m, request, response, next, runtime)
      == Outcome(Throws(ActionExecutionException("Could not find action in request")), [], [])
  {
  }

  /**
   * A truthy action that is not callable fails before it is invoked, with a
   * message that names it (its class, or its string form) right after the prefix.
   */
  lemma NotCallableFails(
    m: ActionExecutorMiddleware, request: Request, response: Response,
    next: Option<Continuation>, runtime: Runtime)
    requires Truthy(GetAction(m, request))
    requires !runtime.isCallable(GetAction(m, request))
    ensures var o := Invoke(m, request, response, next, runtime);
      var name := Describe(GetAction(m, request));
      && o.actionCalls == [] && o.nextCalls == []
      && o.result.Throws?
      && o.result.exception.message == NotCallableMessage(GetAction(m, request))
      && o.result.exception.message[|NotCallablePrefix|..|NotCallablePrefix| + |name|] == name
  {
    var name := Describe(GetAction(m, request));
    var msg := NotCallableMessage(GetAction(m, request));
    assert msg == NotCallablePrefix + name + "\" because it is not callable";
    assert msg[|NotCallablePrefix|..|NotCallablePrefix| + |name|] == name;
  }

  /**
   * A callable action whose result is neither a Payload nor a response fails
   * after it was invoked exactly once; the message names the action and both
   * expected types, and the continuation is not called.
   */
  lemma InvalidResultFails(
    m: ActionExecutorMiddleware, request: Request, response: Response,
    next: Option<Continuation>, runtime: Runtime)
    requires Truthy(GetAction(m, request))
    requires runtime.isCallable(GetAction(m, request))
    requires runtime.call(GetAction(m, request), request, response).Other?
    ensures var o := Invoke(m, request, response, next, runtime);
      var name := Describe(GetAction(m, request));
      var msg := InvalidResultMessage(GetAction(m, request));
      && o.actionCalls == [Call(request, response)] && o.nextCalls == []
      && o.result == Throws(ActionExecutionException(msg))
      && msg[|InvalidResultPrefix|..|InvalidResultPrefix| + |name|] == name
      && Contains(msg, PayloadClass) && Contains(msg, ResponseInterfaceClass)
  {
    var name := Describe(GetAction(m, request));
    var msg := InvalidResultMessage(GetAction(m, request));
    var middle := "\" did neither return an instance of \"";
    var between := "\" nor an instance of \"";
    var i := |InvalidResultPrefix| + |name| + |middle|;
    var j := i + |PayloadClass| + |between|;
    assert msg == InvalidResultPrefix + name + middle + PayloadClass + between + ResponseInterfaceClass + "\"";
    assert msg[|InvalidResultPrefix|..|InvalidResultPrefix| + |name|] == name;
    assert OccursAt(msg, PayloadClass, i);
    assert OccursAt(msg, ResponseInterfaceClass, j);
  }

  /** `needle` occurs in `hay` starting at position `i`. */
  predicate OccursAt(hay: string, needle: string, i: int) {
    0 <= i <= |hay| - |needle| && hay[i..i + |needle|] == needle
  }

  /** `needle` occurs in `hay` at some position. */
  ghost predicate Contains(hay: string, needle: string) {
    exists i :: OccursAt(hay, needle, i)
  }

  /** The step fails exactly when one of its three checks fails. */
  lemma FailsIffACheckFails(
    m: ActionExecutorMiddleware, request: Request, response: Response,
    next: Option<Continuation>, runtime: Runtime)
    ensures Invoke(m, request, response, next, runtime).result.Throws?
      <==> !Passes(m, request, response, runtime)
  {
  }

  /**
   * With every check passed and a continuation supplied, the continuation is
   * called exactly once, with the request carrying the action's result under
   * the payload attribute (every other attribute as it was) and the original
   * response, and the step returns what the continuation returned. This holds
   * whether the action returned a Payload or a response.
   */
  lemma DelegatesToContinuation(
    m: ActionExecutorMiddleware, request: Request, response: Response,
    continuation: Continuation, runtime: Runtime)
    requires Passes(m, request, response, runtime)
    ensures var o := Invoke(m, request, response, Some(continuation), runtime);
      var result := runtime.call(GetAction(m, request), request, response).value;
      var forwarded := o.nextCalls[0].request;
      && |o.nextCalls| == 1
      && o.nextCalls[0].response == response
      && GetAttribute(forwarded, m.domainPayloadAttribute) == result
      && (forall k :: k != m.domainPayloadAttribute ==> GetAttribute(forwarded, k) == GetAttribute(request, k))
      && o.result == Returns(continuation(forwarded, response))
      && o.actionCalls == [Call(request, response)]
  {
  }

  /**
   * With every check passed and no continuation, the original response is
   * returned; a response the action returned is discarded.
   */
  lemma NoContinuationReturnsOriginal(
    m: ActionExecutorMiddleware, request: Request, response: Response, runtime: Runtime)
    requires Passes(m, request, response, runtime)
    ensures var o := Invoke(m, request, response, None, runtime);
      o.result == Returns(response) && o.nextCalls == [] && o.actionCalls == [Call(request, response)]
  {
  }

  /** The continuation is called if and only if the checks pass and one was supplied. */
  lemma ContinuationCalledIff(
    m: ActionExecutorMiddleware, request: Request, response: Response,
    next: Option<Continuation>, runtime: Runtime)
    ensures Invoke(m, request, response, next, runtime).nextCalls != []
      <==> Passes(m, request, response, runtime) && next.Some?
  {
  }

  /**
   * The three failures can be told apart by their messages, so a caller can
   * discriminate them although they share one exception class.
   */
  lemma FailureMessagesDiffer(a: Value, b: Value, c: Value)
    ensures MissingActionMessage != NotCallableMessage(a)
    ensures MissingActionMessage != InvalidResultMessage(b)
    ensures NotCallableMessage(a) != InvalidResultMessage(c)
  {
    assert NotCallableMessage(a)[10] == 'e';
    assert MissingActionMessage[10] == 'f';
    assert NotCallableMessage(a)[0] == 'C';
    assert InvalidResultMessage(b)[0] == 'T';
    assert InvalidResultMessage(c)[0] == 'T';
  }
}
