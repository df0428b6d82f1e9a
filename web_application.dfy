/**
 * The web application object: a middleware pipe that is assembled, once,
 * from three lists of user middleware and three fixed steps, plus helpers
 * that register routes with the router of the routing step.
 *
 * The fields follow the class's own; the inherited pipe is the `pipe` field
 * and the router's route table is the ghost field `routes`. Each method's
 * effect on the pipe state is stated with the functions of `Pipeline`.
 */
module Application {
  import opened Php
  import Pipeline
  import opened Routes
  import DefaultRouteClass

  class WebApplication<M, T> {
    var beforeRoutingMiddlewares: seq<M>
    var beforeActionMiddlewares: seq<M>
    var beforeResponderMiddlewares: seq<M>
    var initialized: bool
    var errorHandler: Option<M>
    var defaultRouteClass: Option<string>
    const routingMiddleware: M
    const actionMiddleware: M
    const responderMiddleware: M
    /** The queue of the middleware pipe this class extends. */
    var pipe: seq<M>
    /** The route table of the router behind the routing middleware. */
    ghost var routes: seq<Route<T>>

    /** The pipe state the `Pipeline` functions describe. */
    function State(): Pipeline.PipelineState<M>
      reads this
    {
      Pipeline.PipelineState(beforeRoutingMiddlewares, beforeActionMiddlewares,
        beforeResponderMiddlewares, pipe, initialized)
    }

    function Fixed(): Pipeline.FixedSteps<M> {
      Pipeline.FixedSteps(routingMiddleware, actionMiddleware, responderMiddleware)
    }

    /**
     * A new application: not initialized, no user middleware, no error
     * handler, no default route class, the three fixed steps as given. The
     * inherited pipe starts empty; the router keeps the routes it already has.
     */
    constructor(routing: M, action: M, responder: M, ghost routerRoutes: seq<Route<T>>)
      ensures State() == Pipeline.Fresh()
      ensures Fixed() == Pipeline.FixedSteps(routing, action, responder)
      ensures errorHandler == None && defaultRouteClass == None
      ensures routes == routerRoutes
    {
      defaultRouteClass := None;
      errorHandler := None;
      initialized := false;
      routingMiddleware := routing;
      actionMiddleware := action;
      responderMiddleware := responder;
      beforeRoutingMiddlewares := [];
      beforeActionMiddlewares := [];
      beforeResponderMiddlewares := [];
      pipe := [];
      routes := routerRoutes;
    }

    /** `setErrorHandler`: records the handler; nothing else changes. */
    method SetErrorHandler(handler: M) returns (self: WebApplication<M, T>)
      modifies this
      ensures self == this
      ensures errorHandler == Some(handler)
      ensures State() == old(State()) && defaultRouteClass == old(defaultRouteClass) && routes == old(routes)
    {
      errorHandler := Some(handler);
      self := this;
    }

    /** `beforeRouting`: appends to the before-routing list only. */
    method BeforeRouting(middleware: M) returns (self: WebApplication<M, T>)
      modifies this
      ensures self == this
      ensures State() == Pipeline.Register(old(State()), Pipeline.BeforeRouting, middleware)
      ensures errorHandler == old(errorHandler) && defaultRouteClass == old(defaultRouteClass)
      ensures routes == old(routes)
    {
      beforeRoutingMiddlewares := beforeRoutingMiddlewares + [middleware];
      self := this;
    }

    /** `beforeAction`: appends to the before-action list only. */
    method BeforeAction(middleware: M) returns (self: WebApplication<M, T>)
      modifies this
      ensures self == this
      ensures State() == Pipeline.Register(old(State()), Pipeline.BeforeAction, middleware)
      ensures errorHandler == old(errorHandler) && defaultRouteClass == old(defaultRouteClass)
      ensures routes == old(routes)
    {
      beforeActionMiddlewares := beforeActionMiddlewares + [middleware];
      self := this;
    }

    /** `beforeResponder`: appends to the before-responder list only. */
    method BeforeResponder(middleware: M) returns (self: WebApplication<M, T>)
      modifies this
      ensures self == this
      ensures State() == Pipeline.Register(old(State()), Pipeline.BeforeResponder, middleware)
      ensures errorHandler == old(errorHandler) && defaultRouteClass == old(defaultRouteClass)
      ensures routes == old(routes)
    {
      beforeResponderMiddlewares := beforeResponderMiddlewares + [middleware];
      self := this;
    }

    /** The inherited `pipe($middleware)`: one more entry at the end of the pipe. */
    method Pipe(middleware: M)
      modifies this
      ensures pipe == old(pipe) + [middleware]
      ensures State() == old(State()).(pipe := old(pipe) + [middleware])
      ensures errorHandler == old(errorHandler) && defaultRouteClass == old(defaultRouteClass)
      ensures routes == old(routes)
    {
      pipe := pipe + [middleware];
    }

    /** `pipeAll`: pipes the given middlewares one by one, in list order. */
    method PipeAll(middlewares: seq<M>)
      modifies this
      ensures pipe == old(pipe) + middlewares
      ensures State() == old(State()).(pipe := old(pipe) + middlewares)
      ensures errorHandler == old(errorHandler) && defaultRouteClass == old(defaultRouteClass)
      ensures routes == old(routes)
    {
      for i := 0 to |middlewares|
        invariant pipe == old(pipe) + middlewares[..i]
        invariant State() == old(State()).(pipe := pipe)
        invariant errorHandler == old(errorHandler) && defaultRouteClass == old(defaultRouteClass)
        invariant routes == old(routes)
      {
        Pipe(middlewares[i]);
        assert middlewares[..i + 1] == middlewares[..i] + [middlewares[i]];
      }
      assert middlewares[..|middlewares|] == middlewares;
    }

    /** `initialize`: on the first call pipes every list and fixed step in order; later calls change nothing. */
    method Initialize()
      modifies this
      ensures State() == Pipeline.Initialize(old(State()), Fixed())
      ensures errorHandler == old(errorHandler) && defaultRouteClass == old(defaultRouteClass)
      ensures routes == old(routes)
    {
      if initialized {
        return;
      }
      PipeAll(beforeRoutingMiddlewares);
      Pipe(routingMiddleware);
      PipeAll(beforeActionMiddlewares);
      Pipe(actionMiddleware);
      PipeAll(beforeResponderMiddlewares);
      Pipe(responderMiddleware);
      initialized := true;
    }

    /** `run`, up to the point where the pipe is invoked: it initializes first. */
    method Run()
      modifies this
      ensures State() == Pipeline.Initialize(old(State()), Fixed())
      ensures errorHandler == old(errorHandler) && defaultRouteClass == old(defaultRouteClass)
      ensures routes == old(routes)
    {
      Initialize();
    }

    /**
     * `setDefaultRouteClass`: sets the default route class to `cls` when it
     * is accepted, throws (leaving it unchanged) when it is rejected. For a
     * class whose parent is neither missing nor `Route` the source loops
     * forever; the model reports that as `Diverges`, with nothing changed.
     */
    method SetDefaultRouteClass(classes: DefaultRouteClass.ClassTable, cls: string) returns (verdict: DefaultRouteClass.Verdict)
      modifies this
      ensures verdict == DefaultRouteClass.Validate(classes, cls, old(defaultRouteClass))
      ensures defaultRouteClass == if verdict.Accepted? then Some(cls) else old(defaultRouteClass)
      ensures State() == old(State()) && errorHandler == old(errorHandler) && routes == old(routes)
    {
      if cls == RouteClass {
        defaultRouteClass := Some(cls);
        return DefaultRouteClass.Accepted;
      }
      var parent := DefaultRouteClass.ParentOf(classes, cls);
      var repeated := false;
      while TruthyString(parent) && !repeated
        invariant parent == DefaultRouteClass.ParentOf(classes, cls)
        invariant defaultRouteClass == old(defaultRouteClass)
        invariant repeated ==> TruthyString(parent) && parent != RouteClass
        decreases if repeated then 0 else 1
      {
        if parent == RouteClass {
          defaultRouteClass := Some(cls);
          break;
        }
        // Nothing the loop reads has changed, so the source would run this
        // same iteration again, forever; the model stops here and reports it.
        parent := DefaultRouteClass.ParentOf(classes, cls);
        repeated := true;
      }
      if repeated {
        return DefaultRouteClass.Diverges;
      }
      if defaultRouteClass != Some(cls) {
        return DefaultRouteClass.Rejected(DefaultRouteClass.RuntimeException(DefaultRouteClass.RejectionMessage(cls)));
      }
      return DefaultRouteClass.Accepted;
    }

    /**
     * `createRoute`: a route built by the default route class (or `Route`),
     * named, and constrained by each parameter's matchers in iteration order.
     */
    method CreateRoute(path: string, methods: string, name: string, target: T, matchers: seq<Constraint>)
      returns (route: Route<T>)
      ensures Describes(route, RouteClassFor(defaultRouteClass), methods, path, name, target, matchers)
    {
      var routeClass := RouteClassFor(defaultRouteClass);
      route := Create(routeClass, methods, path, target);
      route := Named(route, name);
      for i := 0 to |matchers|
        invariant route == Route(routeClass, methods, path, target, Some(name), matchers[..i])
      {
        route := IfMatches(route, matchers[i]);
        assert matchers[..i + 1] == matchers[..i] + [matchers[i]];
      }
      assert matchers[..|matchers|] == matchers;
    }

    /** `addRoute`: the router's table gains exactly this route, at the end. */
    method AddRoute(route: Route<T>) returns (self: WebApplication<M, T>)
      modifies this
      ensures self == this
      ensures routes == old(routes) + [route]
      ensures State() == old(State()) && errorHandler == old(errorHandler)
      ensures defaultRouteClass == old(defaultRouteClass)
    {
      routes := routes + [route];
      self := this;
    }

    /** `get($name, $path, $target, $matchers)`: adds one GET route. */
    method Get(name: string, path: string, target: T, matchers: seq<Constraint>) returns (self: WebApplication<M, T>)
      modifies this
      ensures self == this
      ensures |routes| == |old(routes)| + 1 && routes[..|old(routes)|] == old(routes)
      ensures Describes(routes[|old(routes)|], RouteClassFor(defaultRouteClass), MethodGet, path, name, target, matchers)
      ensures State() == old(State()) && errorHandler == old(errorHandler)
      ensures defaultRouteClass == old(defaultRouteClass)
    {
      var route := CreateRoute(path, MethodGet, name, target, matchers);
      self := AddRoute(route);
    }

    /** `post($name, $path, $target, $matchers)`: adds one POST route. */
    method Post(name: string, path: string, target: T, matchers: seq<Constraint>) returns (self: WebApplication<M, T>)
      modifies this
      ensures self == this
      ensures |routes| == |old(routes)| + 1 && routes[..|old(routes)|] == old(routes)
      ensures Describes(routes[|old(routes)|], RouteClassFor(defaultRouteClass), MethodPost, path, name, target, matchers)
      ensures State() == old(State()) && errorHandler == old(errorHandler)
      ensures defaultRouteClass == old(defaultRouteClass)
    {
      var route := CreateRoute(path, MethodPost, name, target, matchers);
      self := AddRoute(route);
    }

    /** `put($name, $path, $target, $matchers)`: adds one PUT route. */
    method Put(name: string, path: string, target: T, matchers: seq<Constraint>) returns (self: WebApplication<M, T>)
      modifies this
      ensures self == this
      ensures |routes| == |old(routes)| + 1 && routes[..|old(routes)|] == old(routes)
      ensures Describes(routes[|old(routes)|], RouteClassFor(defaultRouteClass), MethodPut, path, name, target, matchers)
      ensures State() == old(State()) && errorHandler == old(errorHandler)
      ensures defaultRouteClass == old(defaultRouteClass)
    {
      var route := CreateRoute(path, MethodPut, name, target, matchers);
      self := AddRoute(route);
    }

    /** `delete($path, $target, $name, $matchers)`: adds one DELETE route; note the argument order. */
    method Delete(path: string, target: T, name: string, matchers: seq<Constraint>) returns (self: WebApplication<M, T>)
      modifies this
      ensures self == this
      ensures |routes| == |old(routes)| + 1 && routes[..|old(routes)|] == old(routes)
      ensures Describes(routes[|old(routes)|], RouteClassFor(defaultRouteClass), MethodDelete, path, name, target, matchers)
      ensures State() == old(State()) && errorHandler == old(errorHandler)
      ensures defaultRouteClass == old(defaultRouteClass)
    {
      var route := CreateRoute(path, MethodDelete, name, target, matchers);
      self := AddRoute(route);
    }

    /** `options($path, $target, $name, $matchers)`: adds one OPTIONS route; note the argument order. */
    method Options(path: string, target: T, name: string, matchers: seq<Constraint>) returns (self: WebApplication<M, T>)
      modifies this
      ensures self == this
      ensures |routes| == |old(routes)| + 1 && routes[..|old(routes)|] == old(routes)
      ensures Describes(routes[|old(routes)|], RouteClassFor(defaultRouteClass), MethodOptions, path, name, target, matchers)
      ensures State() == old(State()) && errorHandler == old(errorHandler)
      ensures defaultRouteClass == old(defaultRouteClass)
    {
      var route := CreateRoute(path, MethodOptions, name, target, matchers);
      self := AddRoute(route);
    }
  }

  /**
   * A client of the class: middleware registered after the first `run` is
   * kept in its list but never enters the pipe, and a second `run` leaves
   * the pipe as the first one built it.
   */
  method LateRegistration<M, T>(app: WebApplication<M, T>, early: M, late: M)
    requires app.State() == Pipeline.Fresh()
    modifies app
    ensures app.pipe == [early, app.routingMiddleware, app.actionMiddleware, app.responderMiddleware]
    ensures app.beforeRoutingMiddlewares == [early, late]
  {
    var a := app.BeforeRouting(early);
    app.Run();
    a := app.BeforeRouting(late);
    app.Run();
  }

  /**
   * A client of the class: once `setDefaultRouteClass` accepts a class, the
   * helpers build the routes added afterwards with that class; otherwise
   * they keep using the default as it was.
   */
  method DefaultClassBuildsLaterRoutes<M, T>(
    app: WebApplication<M, T>, classes: DefaultRouteClass.ClassTable, cls: string,
    name: string, path: string, target: T)
    returns (verdict: DefaultRouteClass.Verdict)
    requires DefaultRouteClass.SettableDefault(classes, app.defaultRouteClass)
    modifies app
    ensures |app.routes| > 0
    ensures verdict.Accepted? ==> app.routes[|app.routes| - 1].routeClass == cls
    ensures !verdict.Accepted? ==> app.routes[|app.routes| - 1].routeClass == RouteClassFor(old(app.defaultRouteClass))
  {
    var before := app.defaultRouteClass;
    verdict := app.SetDefaultRouteClass(classes, cls);
    DefaultRouteClass.AcceptedKeepsSettable(classes, cls, before);
    var a := app.Get(name, path, target, []);
  }
}
