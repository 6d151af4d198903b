# Composite routing and route-scoped decorator binding

This project models two pieces of the Armeria server's routing core in Dafny:

- `CompositeRouter`, which merges an ordered list of delegate routers into one router.
  `find` is first-match-wins, and every match passes through a result mapper. When nothing
  matches, a CORS preflight fails with `403 Forbidden`. Otherwise the context's deferred
  failure is thrown, and without one the result is empty. `findAll` concatenates the
  delegates' matches, maps them and removes duplicates, keeping first occurrences.
  `registerMetrics` passes the prefix unchanged to a single delegate. With several
  delegates it tags each with its index and ORs all results. `dump` runs every delegate's
  dump on the same sink.
- `VirtualHostDecoratingServiceBindingBuilder`, the fluent builder that records route
  criteria and then binds one decorator to every route those criteria produce. It appends
  one `RouteDecoratingService` per route to the owning `VirtualHostBuilder` and returns that
  owner.

Files:

- `wrappers.dfy`: `Option` (a Java reference that may be null) and `Result` (a call
  that returns `Success(v)` or throws `Failure(e)`).
- `routing.dfy`: `Route`, `Routed<T>`, `RoutingContext`, `Throwable`, `MeterIdPrefix`,
  and `Router<T>`. A router is seen through its capability, as total functions for `find`,
  `findAll` and `registerMetrics`. Also `FirstMatch`.
- `streams.dfy`: the `flatMap` / `map` / `distinct` stages as functions on sequences. It
  includes the proof that no duplicates, the same elements and first-seen order determine
  `distinct`'s result.
- `decimal.dfy`: `String.valueOf` for a delegate index, and its inverse.
- `composite_router.dfy`: the `CompositeRouter` class.
- `decorator_binding.dfy`: `VirtualHostBuilder`'s decorator list, the criteria log and the
  binding builder.

Thrown exceptions are values. `find` and `build` return `Result<_, Throwable>`, and
`Failure(t)` means `t` is thrown. The calls that `registerMetrics` and `dump` make on their
delegates are returned as a ghost trace of `DelegateCall`s. Each entry holds the delegate's
index and the prefix or sink it was given.

## Model

| member | source | states |
|---|---|---|
| Routing.FirstMatch | core/src/main/java/com/linecorp/armeria/server/CompositeRouter.java:53-58 | the index the `find` loop stops at: every earlier delegate's `find` is empty, and the one at that index is present, or no delegate matches |
| Routing.FirstMatchIsEarliest | core/src/main/java/com/linecorp/armeria/server/CompositeRouter.java:53-58 | a present delegate preceded only by empty ones is exactly the one `find` stops at |
| CompositeRouting.CompositeRouter.Single | core/src/main/java/com/linecorp/armeria/server/CompositeRouter.java:42-44 | the single-delegate constructor builds the same router as the list constructor given a one-element list |
| CompositeRouting.CompositeRouter.constructor | core/src/main/java/com/linecorp/armeria/server/CompositeRouter.java:46-49 | the router keeps the given delegate list and result mapper |
| CompositeRouting.CompositeRouter.Find | core/src/main/java/com/linecorp/armeria/server/CompositeRouter.java:52-66 | if some delegate matches, the result is the mapper applied to the lowest-index match, even with a deferred failure present, and only delegates up to that one are consulted. If none matches: a CORS preflight throws 403 Forbidden whatever the deferred failure; otherwise a deferred failure `t` is thrown as is; otherwise the result is `Routed.empty()` |
| CompositeRouting.CompositeRouter.CandidatesCover | core/src/main/java/com/linecorp/armeria/server/CompositeRouter.java:70-72 | every match of every delegate, mapped, is among the stream's elements before `distinct` |
| CompositeRouting.CompositeRouter.CandidatesFromDelegates | core/src/main/java/com/linecorp/armeria/server/CompositeRouter.java:70-72 | every stream element before `distinct` is the mapping of some delegate's match |
| CompositeRouting.CompositeRouter.FindAll | core/src/main/java/com/linecorp/armeria/server/CompositeRouter.java:69-74 | the result has no two equal elements. It holds the mapping of every delegate's match and nothing else. Its elements are in the order they first appear in the delegate-ordered, mapped concatenation |
| CompositeRouting.CompositeRouter.FoundIsListed | core/src/main/java/com/linecorp/armeria/server/CompositeRouter.java:52-74 | if each delegate lists its own `find` match in its `findAll`, the composite's mapped `find` match is in the composite's `findAll` |
| CompositeRouting.CompositeRouter.RegisterMetrics | core/src/main/java/com/linecorp/armeria/server/CompositeRouter.java:77-94 | with 0 delegates it returns false and calls nothing. With 1 it calls that delegate once with the unchanged prefix and returns its result. With n >= 2 it calls every delegate exactly once, in index order, with the prefix tagged `index=i`, never short-circuits, and returns the OR of all results |
| CompositeRouting.IndexTaggedDistinct | core/src/main/java/com/linecorp/armeria/server/CompositeRouter.java:87 | two delegates' tagged prefixes are equal only when their indices are equal |
| CompositeRouting.CompositeRouter.Dump | core/src/main/java/com/linecorp/armeria/server/CompositeRouter.java:97-99 | every delegate's dump is called exactly once, in delegate order, with the same sink |
| Decimal.DecimalString | core/src/main/java/com/linecorp/armeria/server/CompositeRouter.java:87 | `String.valueOf(i)` for an index is a non-empty run of decimal digits without a leading zero |
| Decimal.ParseDecimalString | core/src/main/java/com/linecorp/armeria/server/CompositeRouter.java:87 | the index tag value reads back as the index |
| Decimal.DecimalStringInjective | core/src/main/java/com/linecorp/armeria/server/CompositeRouter.java:87 | distinct indices give distinct tag values |
| Streams.Flatten | core/src/main/java/com/linecorp/armeria/server/CompositeRouter.java:71 | `flatMap` yields every element of every delegate's list and nothing else |
| Streams.MapSeq | core/src/main/java/com/linecorp/armeria/server/CompositeRouter.java:72 | `map` keeps length and order and applies the mapper at each position |
| Streams.DistinctFromMembers | core/src/main/java/com/linecorp/armeria/server/CompositeRouter.java:73 | with a set of already-seen elements, the elements kept are those of the input not seen before |
| Streams.DistinctFromNoDuplicates | core/src/main/java/com/linecorp/armeria/server/CompositeRouter.java:73 | the kept elements are pairwise different |
| Streams.DistinctFromFirstSeenOrder | core/src/main/java/com/linecorp/armeria/server/CompositeRouter.java:73 | the kept elements come from the input, in the order of their first occurrence |
| Streams.Distinct | core/src/main/java/com/linecorp/armeria/server/CompositeRouter.java:73 | `distinct` keeps each element of the input exactly once, in first-occurrence order |
| Streams.FirstSeenOrderedUnique | core/src/main/java/com/linecorp/armeria/server/CompositeRouter.java:73 | two sequences with the same elements, both in strictly increasing first-occurrence order, are equal |
| Streams.DistinctIsUnique | core/src/main/java/com/linecorp/armeria/server/CompositeRouter.java:73 | any sequence holding exactly the input's elements in first-seen order is `distinct`'s result, so the three properties of `Streams.Distinct` specify it completely |
| DecoratorBinding.VirtualHostDecoratingServiceBindingBuilder.constructor | core/src/main/java/com/linecorp/armeria/server/VirtualHostDecoratingServiceBindingBuilder.java:55-57 | the builder remembers its owning `VirtualHostBuilder` and starts with no criteria; the owner parameter's non-null type excludes the null owner (see `Create` for the rejection) |
| DecoratorBinding.VirtualHostDecoratingServiceBindingBuilder.Create | core/src/main/java/com/linecorp/armeria/server/VirtualHostDecoratingServiceBindingBuilder.java:55-57 | a null owner is rejected with a NullPointerException; otherwise a fresh builder for that very owner results, with no criteria yet |
| DecoratorBinding.VirtualHostDecoratingServiceBindingBuilder.Path | core/src/main/java/com/linecorp/armeria/server/VirtualHostDecoratingServiceBindingBuilder.java:59-62 | records the path pattern and returns the same builder |
| DecoratorBinding.VirtualHostDecoratingServiceBindingBuilder.PathUnder | core/src/main/java/com/linecorp/armeria/server/VirtualHostDecoratingServiceBindingBuilder.java:68-72 | leaves the builder in exactly the state `pathPrefix(prefix)` does, and returns the same builder |
| DecoratorBinding.VirtualHostDecoratingServiceBindingBuilder.PathPrefix | core/src/main/java/com/linecorp/armeria/server/VirtualHostDecoratingServiceBindingBuilder.java:74-77 | records the path prefix and returns the same builder |
| DecoratorBinding.VirtualHostDecoratingServiceBindingBuilder.Methods | core/src/main/java/com/linecorp/armeria/server/VirtualHostDecoratingServiceBindingBuilder.java:79-87 | records the given methods and returns the same builder |
| DecoratorBinding.VirtualHostDecoratingServiceBindingBuilder.Get | core/src/main/java/com/linecorp/armeria/server/VirtualHostDecoratingServiceBindingBuilder.java:89-92 | records the GET shortcut for the pattern and returns the same builder |
| DecoratorBinding.VirtualHostDecoratingServiceBindingBuilder.Post | core/src/main/java/com/linecorp/armeria/server/VirtualHostDecoratingServiceBindingBuilder.java:94-97 | records the POST shortcut for the pattern and returns the same builder |
| DecoratorBinding.VirtualHostDecoratingServiceBindingBuilder.Put | core/src/main/java/com/linecorp/armeria/server/VirtualHostDecoratingServiceBindingBuilder.java:99-102 | records the PUT shortcut for the pattern and returns the same builder |
| DecoratorBinding.VirtualHostDecoratingServiceBindingBuilder.Patch | core/src/main/java/com/linecorp/armeria/server/VirtualHostDecoratingServiceBindingBuilder.java:104-107 | records the PATCH shortcut for the pattern and returns the same builder |
| DecoratorBinding.VirtualHostDecoratingServiceBindingBuilder.Delete | core/src/main/java/com/linecorp/armeria/server/VirtualHostDecoratingServiceBindingBuilder.java:109-112 | records the DELETE shortcut for the pattern and returns the same builder |
| DecoratorBinding.VirtualHostDecoratingServiceBindingBuilder.Options | core/src/main/java/com/linecorp/armeria/server/VirtualHostDecoratingServiceBindingBuilder.java:114-117 | as written, records the DELETE shortcut, not OPTIONS, and returns the same builder |
| DecoratorBinding.OptionsRecordsDelete | core/src/main/java/com/linecorp/armeria/server/VirtualHostDecoratingServiceBindingBuilder.java:114-117 | what `options(p)` records equals what `delete(p)` records and differs from the intended OPTIONS criterion |
| DecoratorBinding.IntendedOptionsRecordsOptions | core/src/main/java/com/linecorp/armeria/server/VirtualHostDecoratingServiceBindingBuilder.java:114-117 | the evidently intended `options(p)` criterion selects OPTIONS on `p` and differs from every other method's shortcut |
| DecoratorBinding.ShortcutCriterionInjective | core/src/main/java/com/linecorp/armeria/server/VirtualHostDecoratingServiceBindingBuilder.java:89-132 | two method shortcuts record the same criterion only for the same method and pattern |
| DecoratorBinding.VirtualHostDecoratingServiceBindingBuilder.Head | core/src/main/java/com/linecorp/armeria/server/VirtualHostDecoratingServiceBindingBuilder.java:119-122 | records the HEAD shortcut for the pattern and returns the same builder |
| DecoratorBinding.VirtualHostDecoratingServiceBindingBuilder.Trace | core/src/main/java/com/linecorp/armeria/server/VirtualHostDecoratingServiceBindingBuilder.java:124-127 | records the TRACE shortcut for the pattern and returns the same builder |
| DecoratorBinding.VirtualHostDecoratingServiceBindingBuilder.Connect | core/src/main/java/com/linecorp/armeria/server/VirtualHostDecoratingServiceBindingBuilder.java:129-132 | records the CONNECT shortcut for the pattern and returns the same builder |
| DecoratorBinding.VirtualHostDecoratingServiceBindingBuilder.Consumes | core/src/main/java/com/linecorp/armeria/server/VirtualHostDecoratingServiceBindingBuilder.java:134-142 | records the consumable media types and returns the same builder |
| DecoratorBinding.VirtualHostDecoratingServiceBindingBuilder.Produces | core/src/main/java/com/linecorp/armeria/server/VirtualHostDecoratingServiceBindingBuilder.java:144-152 | records the producible media types and returns the same builder |
| DecoratorBinding.Bind | core/src/main/java/com/linecorp/armeria/server/VirtualHostDecoratingServiceBindingBuilder.java:169-171 | one binding per route: entry k pairs route k with the one decorator |
| DecoratorBinding.VirtualHostBuilder.AddRouteDecoratingService | core/src/main/java/com/linecorp/armeria/server/VirtualHostDecoratingServiceBindingBuilder.java:170-171 | the owner appends the binding to its decorator list and changes nothing else |
| DecoratorBinding.VirtualHostDecoratingServiceBindingBuilder.Build | core/src/main/java/com/linecorp/armeria/server/VirtualHostDecoratingServiceBindingBuilder.java:162-173 | a null decorator throws before anything is appended. Otherwise exactly one binding per resolved route is appended to the owner's list, in route order, all with the same decorator. Entries already there are unchanged, and the very owner given to the constructor is returned |
| DecoratorBinding.VirtualHostDecoratingServiceBindingBuilder.BuildFunction | core/src/main/java/com/linecorp/armeria/server/VirtualHostDecoratingServiceBindingBuilder.java:181-185 | a null decorating function throws before anything is appended. Otherwise the effect is that of `build` with the decorator that wraps its delegate in a `FunctionalDecoratingService` running the function |

## Findings

| source | as written | input that shows it | evidently intended | confidence | as-written member | corrected member |
|---|---|---|---|---|---|---|
| core/src/main/java/com/linecorp/armeria/server/VirtualHostDecoratingServiceBindingBuilder.java:114-117 | `options(pattern)` forwards to `super.delete(pattern)` | `routeDecorator().options("/a").build(d)` binds `d` to DELETE requests on `/a`, not to OPTIONS requests | forward to `super.options(pattern)`, so OPTIONS is recorded like every other shortcut records its own method | high; not executed | DecoratorBinding.OptionsRecordsDelete | DecoratorBinding.IntendedOptionsRecordsOptions |

`VirtualHostDecoratingServiceBindingBuilder.Options` keeps the source's behaviour, recording
`OptionsCriterion`. The corrected criterion is `IntendedOptionsCriterion`, the OPTIONS
shortcut. Every other shortcut setter records `ShortcutCriterion(m, pattern)` for its own
method `m`.

## Left out

- Route resolution (`buildRouteList` and how the criteria setters accumulate state) lives in
  `AbstractBindingBuilder`, which is not part of this model. The criteria are kept as an
  ordered log of the setter calls, and resolution is a function `buildRouteList` from that
  log to routes, given to the builder's constructor. Setter argument validation in that
  class, such as null patterns, is not modelled.
- Leaf routers and path-pattern matching are not modelled: a delegate's `find`, `findAll` and
  `registerMetrics` are arbitrary total functions.
- CompositeRouting.CompositeRouter.Find: a delegate's `find` is modelled as never throwing.
  In the source, an exception from a delegate would leave the loop and propagate, and so would
  a nested composite's 403 or deferred failure.
- CompositeRouting.CompositeRouter.RegisterMetrics: the registry is an opaque handle. The meters
  the delegates register are not modelled. `MeterIdPrefix.withTags` is modelled as appending
  one tag, without the tag ordering or same-key replacement of the metrics library.
- CompositeRouting.CompositeRouter.Dump: the bytes written to the output stream are not
  modelled, only which delegate was asked to dump onto which sink.
- The `calls` traces of `RegisterMetrics` and `Dump` are the model's own record of the calls,
  written by those methods, because the registration and dump effects of the delegates are not
  modelled. Nothing ties a trace entry to the delegate's function actually being evaluated.
  A `RegisterMetrics` body that stopped evaluating delegates after the first `true` would still
  meet the contract. The OR of all results is stated, but not that every delegate's
  registration ran. A `Router` has no dump capability, so the `Dump` trace depends only on
  the number of delegates.
- DecoratorBinding.VirtualHostDecoratingServiceBindingBuilder.constructor: takes a non-null
  `VirtualHostBuilder`, so Dafny's type rules out the null owner the source rejects.
  `VirtualHostDecoratingServiceBindingBuilder.Create` models that rejection as a
  `NullPointerException` failure.
- `requireNonNull` on `CompositeRouter`'s constructor arguments (the delegate list, the single
  delegate, the result mapper) is not a runtime failure here: Dafny's non-null types rule those
  nulls out for the caller. The null checks in `build` are modelled, as `None` arguments.
- The unchecked generic casts in `build` and the bodies of decorators and decorating functions
  are not modelled. A decorator is an opaque value.
- Dispatch-time folding of the decorator list into a handler chain is done by the virtual
  host. It is not part of this model.
- An empty delegate list is accepted: `registerMetrics` returns false and `find` goes straight
  to the fallbacks.
- `build` has no reuse guard, so calling it again appends again.
- Nested composites do not flatten associatively. With a CORS preflight or a deferred failure,
  an inner composite that matches nothing throws, and that ends the outer loop.
