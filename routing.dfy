/** The routing vocabulary shared by routers: routes, match results, the per-request
    routing context, failures, meter id prefixes, and the router capability itself. */
module Routing {
  import opened Wrappers

  datatype HttpMethod = OPTIONS | GET | HEAD | POST | PUT | PATCH | DELETE | TRACE | CONNECT

  type MediaType = string

  /** Immutable match criteria; equality is structural. */
  datatype Route = Route(
    pathPattern: string,
    methods: seq<HttpMethod>,
    consumes: seq<MediaType>,
    produces: seq<MediaType>)

  /** The outcome of one match attempt: the empty singleton, or a matched route with
      its path parameters (in declaration order) and the associated value. */
  datatype Routed<T> =
    | Empty
    | Present(route: Route, pathParams: seq<(string, string)>, value: T)

  /** Status code of `403 Forbidden`. */
  const FORBIDDEN: nat := 403

  /** What a router call may throw. `HttpStatusException` carries an HTTP status;
      every other failure, such as a context's deferred one, is opaque to routing. */
  datatype Throwable =
    | HttpStatusException(status: nat)
    | NullPointerException(message: string)
    | OtherThrowable(className: string, message: string)

  /** The routing-relevant view of one request. */
  datatype RoutingContext = RoutingContext(
    path: string,
    httpMethod: HttpMethod,
    query: string,
    acceptTypes: seq<MediaType>,
    isCorsPreflight: bool,
    delayedThrowable: Option<Throwable>)

  datatype Tag = Tag(key: string, value: string)

  /** A meter name together with its tags. */
  datatype MeterIdPrefix = MeterIdPrefix(name: string, tags: seq<Tag>)
  {
    /** The same prefix with one more tag `key=value`. */
    function WithTags(key: string, value: string): MeterIdPrefix
    {
      MeterIdPrefix(name, tags + [Tag(key, value)])
    }
  }

  /** Handles for the meter registry and the dump output stream; their contents are
      not part of this model. */
  datatype MeterRegistry = MeterRegistry(id: nat)
  datatype OutputSink = OutputSink(id: nat)

  /** A router, seen through its capability: the single best match for a context,
      every match for a context (in registration order), and whether registering its
      metrics under a prefix registered anything. */
  datatype Router<T> = Router(
    find: RoutingContext -> Routed<T>,
    findAll: RoutingContext -> seq<Routed<T>>,
    registerMetrics: (MeterRegistry, MeterIdPrefix) -> bool)

  /** The index of the first router of `ds` whose `find` is present for `ctx`, or `|ds|`
      when none is. */
  function FirstMatch<T>(ds: seq<Router<T>>, ctx: RoutingContext): (k: nat)
    ensures k <= |ds|
    ensures forall j :: 0 <= j < k ==> ds[j].find(ctx).Empty?
    ensures k < |ds| ==> ds[k].find(ctx).Present?
  {
    if ds == [] then 0
    else if ds[0].find(ctx).Present? then 0
    else 1 + FirstMatch(ds[1..], ctx)
  }

  /** The first match is unique: the earliest present router is the one `FirstMatch` names. */
  lemma FirstMatchIsEarliest<T>(ds: seq<Router<T>>, ctx: RoutingContext, k: nat)
    requires k < |ds| && ds[k].find(ctx).Present?
    requires forall j :: 0 <= j < k ==> ds[j].find(ctx).Empty?
    ensures FirstMatch(ds, ctx) == k
  {
  }
}
