/**
 * Route descriptors as the application builds them. The router library
 * (its `Route::create`, `named`, `ifMatches` and its matching) is not part of
 * this model, so a route is a record of how it was constructed: the class
 * whose `create` built it, the HTTP method, the path, the target, the name
 * and the matcher constraints applied, in the order they were applied.
 */
module Routes {
  import opened Php

  /** `Route::class`: the router's base route class. */
  const RouteClass := "bitExpert\\Pathfinder\\Route"

  const MethodGet := "GET"
  const MethodPost := "POST"
  const MethodPut := "PUT"
  const MethodDelete := "DELETE"
  const MethodOptions := "OPTIONS"

  /** A matcher object of the router library, known only by identity. */
  datatype Matcher = Matcher(id: nat)

  /** One `ifMatches($param, $matchers)` applied to a route. */
  datatype Constraint = Constraint(param: string, matchers: seq<Matcher>)

  datatype Route<T> = Route(
    routeClass: string,
    methods: string,
    path: string,
    target: T,
    name: Option<string>,
    constraints: seq<Constraint>)

  /** `forward_static_call([$routeClass, 'create'], $methods, $path, $target)`. */
  function Create<T>(routeClass: string, methods: string, path: string, target: T): Route<T> {
    Route(routeClass, methods, path, target, None, [])
  }

  /** `$route->named($name)`. */
  function Named<T>(route: Route<T>, name: string): Route<T> {
    route.(name := Some(name))
  }

  /** `$route->ifMatches($param, $matchers)`: one more constraint, after those already applied. */
  function IfMatches<T>(route: Route<T>, c: Constraint): Route<T> {
    route.(constraints := route.constraints + [c])
  }

  /**
   * The class `createRoute` builds with: the configured default route class
   * when it is set (and truthy), otherwise `Route`.
   */
  function RouteClassFor(defaultRouteClass: Option<string>): (c: string)
    ensures defaultRouteClass.Some? && TruthyString(defaultRouteClass.value) ==> c == defaultRouteClass.value
    ensures !(defaultRouteClass.Some? && TruthyString(defaultRouteClass.value)) ==> c == RouteClass
    ensures TruthyString(c)
  {
    if defaultRouteClass.Some? && TruthyString(defaultRouteClass.value) then defaultRouteClass.value else RouteClass
  }

  /** A route as `createRoute` describes it: built by the given class, then named, then constrained. */
  ghost predicate Describes<T>(
    route: Route<T>, routeClass: string, methods: string, path: string,
    name: string, target: T, constraints: seq<Constraint>)
  {
    route == Route(routeClass, methods, path, target, Some(name), constraints)
  }
}
