/** Binding one decorator to every route produced by a set of accumulated criteria,
    and handing the bindings to the owning virtual host builder. */
module DecoratorBinding {
  import opened Wrappers
  import opened Routing

  /** A user-supplied `(delegate, ctx, req) -> response` decorating function; its body
      is not part of this model. */
  datatype DecoratingServiceFunction = DecoratingServiceFunction(id: nat)

  /** A service-to-service decorator: an arbitrary user function, or the one that wraps
      its delegate in a `FunctionalDecoratingService` running a decorating function. */
  datatype Decorator =
    | DecoratorFunction(id: nat)
    | FunctionalDecoratingService(decoratingFunction: DecoratingServiceFunction)

  /** One route paired with one decorator. */
  datatype RouteDecoratingService = RouteDecoratingService(route: Route, decorator: Decorator)

  /** One route-selection criterion, as handed to a criteria setter. */
  datatype Criterion =
    | PathPattern(pattern: string)
    | PathPrefix(prefix: string)
    | Methods(methods: seq<HttpMethod>)
    | MethodPath(httpMethod: HttpMethod, pattern: string)
    | Consumes(consumeTypes: seq<MediaType>)
    | Produces(produceTypes: seq<MediaType>)

  /** The criterion a per-method shortcut such as `get(pattern)` records. */
  function ShortcutCriterion(httpMethod: HttpMethod, pathPattern: string): Criterion
  {
    MethodPath(httpMethod, pathPattern)
  }

  /** Distinct shortcuts record distinct criteria: each records its own method. */
  lemma ShortcutCriterionInjective(m1: HttpMethod, p1: string, m2: HttpMethod, p2: string)
    ensures ShortcutCriterion(m1, p1) == ShortcutCriterion(m2, p2) <==> m1 == m2 && p1 == p2
  {
  }

  /** The criterion `options(pattern)` records as written: that of `delete(pattern)`. */
  function OptionsCriterion(pathPattern: string): Criterion
  {
    ShortcutCriterion(DELETE, pathPattern)
  }

  /** The criterion `options(pattern)` is evidently meant to record: the OPTIONS
      shortcut, as every other shortcut records its own method. */
  function IntendedOptionsCriterion(pathPattern: string): Criterion
  {
    ShortcutCriterion(OPTIONS, pathPattern)
  }

  /** The intended criterion selects OPTIONS requests on the pattern and differs from
      what every other method's shortcut records. */
  lemma IntendedOptionsRecordsOptions(pathPattern: string, other: HttpMethod)
    requires other != OPTIONS
    ensures IntendedOptionsCriterion(pathPattern) == MethodPath(OPTIONS, pathPattern)
    ensures IntendedOptionsCriterion(pathPattern) != ShortcutCriterion(other, pathPattern)
  {
    ShortcutCriterionInjective(OPTIONS, pathPattern, other, pathPattern);
  }

  /** `options(pattern)` selects DELETE requests rather than OPTIONS requests. */
  lemma OptionsRecordsDelete(pathPattern: string)
    ensures OptionsCriterion(pathPattern) == ShortcutCriterion(DELETE, pathPattern)
    ensures OptionsCriterion(pathPattern) != IntendedOptionsCriterion(pathPattern)
  {
    IntendedOptionsRecordsOptions(pathPattern, DELETE);
  }

  /** One binding per route, in route order, all with the same decorator. */
  function Bind(routes: seq<Route>, decorator: Decorator): (r: seq<RouteDecoratingService>)
    ensures |r| == |routes|
    ensures forall k :: 0 <= k < |routes| ==> r[k] == RouteDecoratingService(routes[k], decorator)
  {
    if routes == [] then [] else [RouteDecoratingService(routes[0], decorator)] + Bind(routes[1..], decorator)
  }

  /** The part of a virtual host builder that route-scoped decorators are added to. */
  class VirtualHostBuilder {
    var routeDecoratingServices: seq<RouteDecoratingService>

    constructor ()
      ensures routeDecoratingServices == []
    {
      routeDecoratingServices := [];
    }

    method AddRouteDecoratingService(service: RouteDecoratingService)
      modifies this
      ensures routeDecoratingServices == old(routeDecoratingServices) + [service]
    {
      routeDecoratingServices := routeDecoratingServices + [service];
    }
  }

  /** The fluent builder. `criteria` is the log of criteria handed to its setters, in
      call order; `buildRouteList` resolves them into routes. */
  class VirtualHostDecoratingServiceBindingBuilder {
    const virtualHostBuilder: VirtualHostBuilder
    const buildRouteList: seq<Criterion> -> seq<Route>
    var criteria: seq<Criterion>

    constructor (virtualHostBuilder: VirtualHostBuilder, buildRouteList: seq<Criterion> -> seq<Route>)
      ensures this.virtualHostBuilder == virtualHostBuilder
      ensures this.buildRouteList == buildRouteList
      ensures criteria == []
    {
      this.virtualHostBuilder := virtualHostBuilder;
      this.buildRouteList := buildRouteList;
      criteria := [];
    }

    /** The constructor together with its null check on the owner: a null owner is
        rejected, otherwise a fresh builder for that owner with no criteria results. */
    static method Create(virtualHostBuilder: Option<VirtualHostBuilder>, buildRouteList: seq<Criterion> -> seq<Route>)
      returns (r: Result<VirtualHostDecoratingServiceBindingBuilder, Throwable>)
      ensures virtualHostBuilder.None? ==> r == Failure(NullPointerException("virtualHostBuilder"))
      ensures virtualHostBuilder.Some? ==>
                r.Success? && fresh(r.value) &&
                r.value.virtualHostBuilder == virtualHostBuilder.value &&
                r.value.buildRouteList == buildRouteList &&
                r.value.criteria == []
    {
      if virtualHostBuilder.None? {
        return Failure(NullPointerException("virtualHostBuilder"));
      }
      var builder := new VirtualHostDecoratingServiceBindingBuilder(virtualHostBuilder.value, buildRouteList);
      return Success(builder);
    }

    method Path(pathPattern: string) returns (self: VirtualHostDecoratingServiceBindingBuilder)
      modifies this`criteria
      ensures self == this && criteria == old(criteria) + [Criterion.PathPattern(pathPattern)]
    {
      criteria := criteria + [Criterion.PathPattern(pathPattern)];
      return this;
    }

    /** Deprecated alias: records exactly what `PathPrefix` records. */
    method PathUnder(prefix: string) returns (self: VirtualHostDecoratingServiceBindingBuilder)
      modifies this`criteria
      ensures self == this && criteria == old(criteria) + [Criterion.PathPrefix(prefix)]
    {
      self := PathPrefix(prefix);
    }

    method PathPrefix(prefix: string) returns (self: VirtualHostDecoratingServiceBindingBuilder)
      modifies this`criteria
      ensures self == this && criteria == old(criteria) + [Criterion.PathPrefix(prefix)]
    {
      criteria := criteria + [Criterion.PathPrefix(prefix)];
      return this;
    }

    /** Both the varargs and the iterable form. */
    method Methods(methods: seq<HttpMethod>) returns (self: VirtualHostDecoratingServiceBindingBuilder)
      modifies this`criteria
      ensures self == this && criteria == old(criteria) + [Criterion.Methods(methods)]
    {
      criteria := criteria + [Criterion.Methods(methods)];
      return this;
    }

    method Shortcut(httpMethod: HttpMethod, pathPattern: string) returns (self: VirtualHostDecoratingServiceBindingBuilder)
      modifies this`criteria
      ensures self == this && criteria == old(criteria) + [ShortcutCriterion(httpMethod, pathPattern)]
    {
      criteria := criteria + [ShortcutCriterion(httpMethod, pathPattern)];
      return this;
    }

    method Get(pathPattern: string) returns (self: VirtualHostDecoratingServiceBindingBuilder)
      modifies this`criteria
      ensures self == this && criteria == old(criteria) + [ShortcutCriterion(GET, pathPattern)]
    {
      self := Shortcut(GET, pathPattern);
    }

    method Post(pathPattern: string) returns (self: VirtualHostDecoratingServiceBindingBuilder)
      modifies this`criteria
      ensures self == this && criteria == old(criteria) + [ShortcutCriterion(POST, pathPattern)]
    {
      self := Shortcut(POST, pathPattern);
    }

    method Put(pathPattern: string) returns (self: VirtualHostDecoratingServiceBindingBuilder)
      modifies this`criteria
      ensures self == this && criteria == old(criteria) + [ShortcutCriterion(PUT, pathPattern)]
    {
      self := Shortcut(PUT, pathPattern);
    }

    method Patch(pathPattern: string) returns (self: VirtualHostDecoratingServiceBindingBuilder)
      modifies this`criteria
      ensures self == this && criteria == old(criteria) + [ShortcutCriterion(PATCH, pathPattern)]
    {
      self := Shortcut(PATCH, pathPattern);
    }

    method Delete(pathPattern: string) returns (self: VirtualHostDecoratingServiceBindingBuilder)
      modifies this`criteria
      ensures self == this && criteria == old(criteria) + [ShortcutCriterion(DELETE, pathPattern)]
    {
      self := Shortcut(DELETE, pathPattern);
    }

    /** As written, this records the DELETE shortcut (see `OptionsRecordsDelete`). */
    method Options(pathPattern: string) returns (self: VirtualHostDecoratingServiceBindingBuilder)
      modifies this`criteria
      ensures self == this && criteria == old(criteria) + [OptionsCriterion(pathPattern)]
    {
      self := Shortcut(DELETE, pathPattern);
    }

    method Head(pathPattern: string) returns (self: VirtualHostDecoratingServiceBindingBuilder)
      modifies this`criteria
      ensures self == this && criteria == old(criteria) + [ShortcutCriterion(HEAD, pathPattern)]
    {
      self := Shortcut(HEAD, pathPattern);
    }

    method Trace(pathPattern: string) returns (self: VirtualHostDecoratingServiceBindingBuilder)
      modifies this`criteria
      ensures self == this && criteria == old(criteria) + [ShortcutCriterion(TRACE, pathPattern)]
    {
      self := Shortcut(TRACE, pathPattern);
    }

    method Connect(pathPattern: string) returns (self: VirtualHostDecoratingServiceBindingBuilder)
      modifies this`criteria
      ensures self == this && criteria == old(criteria) + [ShortcutCriterion(CONNECT, pathPattern)]
    {
      self := Shortcut(CONNECT, pathPattern);
    }

    /** Both the varargs and the iterable form. */
    method Consumes(consumeTypes: seq<MediaType>) returns (self: VirtualHostDecoratingServiceBindingBuilder)
      modifies this`criteria
      ensures self == this && criteria == old(criteria) + [Criterion.Consumes(consumeTypes)]
    {
      criteria := criteria + [Criterion.Consumes(consumeTypes)];
      return this;
    }

    /** Both the varargs and the iterable form. */
    method Produces(produceTypes: seq<MediaType>) returns (self: VirtualHostDecoratingServiceBindingBuilder)
      modifies this`criteria
      ensures self == this && criteria == old(criteria) + [Criterion.Produces(produceTypes)]
    {
      criteria := criteria + [Criterion.Produces(produceTypes)];
      return this;
    }

    /** Appends one binding of `decorator` per resolved route, in route order, to the
        owner and returns the owner; a null decorator is rejected before anything is
        appended. The builder's own criteria are left as they were. */
    method Build(decorator: Option<Decorator>) returns (r: Result<VirtualHostBuilder, Throwable>)
      modifies virtualHostBuilder
      ensures decorator.None? ==>
                r == Failure(NullPointerException("decorator")) &&
                virtualHostBuilder.routeDecoratingServices == old(virtualHostBuilder.routeDecoratingServices)
      ensures decorator.Some? ==>
                r == Success(virtualHostBuilder) &&
                virtualHostBuilder.routeDecoratingServices ==
                  old(virtualHostBuilder.routeDecoratingServices) + Bind(buildRouteList(criteria), decorator.value)
    {
      if decorator.None? {
        return Failure(NullPointerException("decorator"));
      }
      var routes := buildRouteList(criteria);
      for k := 0 to |routes|
        invariant virtualHostBuilder.routeDecoratingServices ==
                    old(virtualHostBuilder.routeDecoratingServices) + Bind(routes[..k], decorator.value)
      {
        virtualHostBuilder.AddRouteDecoratingService(RouteDecoratingService(routes[k], decorator.value));
        assert Bind(routes[..k + 1], decorator.value) == Bind(routes[..k], decorator.value) + [RouteDecoratingService(routes[k], decorator.value)];
      }
      assert routes[..|routes|] == routes;
      return Success(virtualHostBuilder);
    }

    /** The same as `Build` with the decorator that wraps its delegate in a
        `FunctionalDecoratingService` running `decoratingServiceFunction`. */
    method BuildFunction(decoratingServiceFunction: Option<DecoratingServiceFunction>)
      returns (r: Result<VirtualHostBuilder, Throwable>)
      modifies virtualHostBuilder
      ensures decoratingServiceFunction.None? ==>
                r == Failure(NullPointerException("decoratingServiceFunction")) &&
                virtualHostBuilder.routeDecoratingServices == old(virtualHostBuilder.routeDecoratingServices)
      ensures decoratingServiceFunction.Some? ==>
                r == Success(virtualHostBuilder) &&
                virtualHostBuilder.routeDecoratingServices ==
                  old(virtualHostBuilder.routeDecoratingServices) +
                  Bind(buildRouteList(criteria), FunctionalDecoratingService(decoratingServiceFunction.value))
    {
      if decoratingServiceFunction.None? {
        return Failure(NullPointerException("decoratingServiceFunction"));
      }
      r := Build(Some(FunctionalDecoratingService(decoratingServiceFunction.value)));
    }
  }
}
