/** A router composed of an ordered list of delegate routers and a result mapper. */
module CompositeRouting {
  import opened Wrappers
  import opened Routing
  import Streams
  import Decimal

  /** One call the composite makes on a delegate, identified by its position. */
  datatype DelegateCall =
    | RegisterMetricsCall(index: nat, idPrefix: MeterIdPrefix)
    | DumpCall(index: nat, output: OutputSink)

  /** The prefix under which the delegate at `index` registers its metrics when there
      are several delegates: the given prefix tagged `index=<decimal index>`. */
  function IndexTagged(idPrefix: MeterIdPrefix, index: nat): MeterIdPrefix
  {
    idPrefix.WithTags("index", Decimal.DecimalString(index))
  }

  /** Different delegates register under different prefixes. */
  lemma IndexTaggedDistinct(idPrefix: MeterIdPrefix, i: nat, j: nat)
    ensures IndexTagged(idPrefix, i) == IndexTagged(idPrefix, j) <==> i == j
  {
    var pi, pj := IndexTagged(idPrefix, i), IndexTagged(idPrefix, j);
    if pi == pj {
      assert pi.tags[|pi.tags| - 1] == pj.tags[|pj.tags| - 1];
      Decimal.DecimalStringInjective(i, j);
    }
  }

  class CompositeRouter<I, O(==)> {
    const delegates: seq<Router<I>>
    const resultMapper: Routed<I> -> Routed<O>

    /** The single-delegate form: the same as a one-element delegate list. */
    constructor Single(delegate: Router<I>, resultMapper: Routed<I> -> Routed<O>)
      ensures delegates == [delegate] && this.resultMapper == resultMapper
    {
      delegates := [delegate];
      this.resultMapper := resultMapper;
    }

    constructor (delegates: seq<Router<I>>, resultMapper: Routed<I> -> Routed<O>)
      ensures this.delegates == delegates && this.resultMapper == resultMapper
    {
      this.delegates := delegates;
      this.resultMapper := resultMapper;
    }

    /** Some delegate has a present `find` result for `ctx`. */
    predicate SomeMatch(ctx: RoutingContext)
    {
      exists k :: 0 <= k < |delegates| && delegates[k].find(ctx).Present?
    }

    /** First match wins; when nothing matches, a CORS preflight is forbidden, otherwise
        the context's deferred failure is thrown, otherwise the result is empty.
        `consulted` is how many delegates were asked, always a prefix of the list. */
    method Find(ctx: RoutingContext) returns (outcome: Result<Routed<O>, Throwable>, ghost consulted: nat)
      ensures SomeMatch(ctx) ==>
                var k := FirstMatch(delegates, ctx);
                outcome == Success(resultMapper(delegates[k].find(ctx))) && consulted == k + 1
      ensures !SomeMatch(ctx) ==> consulted == |delegates|
      ensures !SomeMatch(ctx) && ctx.isCorsPreflight ==>
                outcome == Failure(HttpStatusException(FORBIDDEN))
      ensures !SomeMatch(ctx) && !ctx.isCorsPreflight && ctx.delayedThrowable.Some? ==>
                outcome == Failure(ctx.delayedThrowable.value)
      ensures !SomeMatch(ctx) && !ctx.isCorsPreflight && ctx.delayedThrowable.None? ==>
                outcome == Success(Empty)
    {
      for i := 0 to |delegates|
        invariant forall j :: 0 <= j < i ==> delegates[j].find(ctx).Empty?
      {
        var result := delegates[i].find(ctx);
        if result.Present? {
          FirstMatchIsEarliest(delegates, ctx, i);
          return Success(resultMapper(result)), i + 1;
        }
      }
      consulted := |delegates|;
      if ctx.isCorsPreflight {
        return Failure(HttpStatusException(FORBIDDEN)), consulted;
      }
      if ctx.delayedThrowable.Some? {
        return Failure(ctx.delayedThrowable.value), consulted;
      }
      return Success(Empty), consulted;
    }

    /** The delegates' `findAll` results, concatenated in delegate order and mapped. */
    function Candidates(ctx: RoutingContext): seq<Routed<O>>
    {
      Streams.MapSeq(resultMapper, Streams.Flatten(DelegateMatches(ctx)))
    }

    /** The delegates' `findAll` results, in delegate order. */
    function DelegateMatches(ctx: RoutingContext): seq<seq<Routed<I>>>
    {
      seq(|delegates|, k requires 0 <= k < |delegates| => delegates[k].findAll(ctx))
    }

    /** Every delegate's match, mapped, is a candidate. */
    lemma CandidatesCover(ctx: RoutingContext)
      ensures forall k, j :: 0 <= k < |delegates| && 0 <= j < |delegates[k].findAll(ctx)| ==>
                resultMapper(delegates[k].findAll(ctx)[j]) in Candidates(ctx)
    {
      var lists := DelegateMatches(ctx);
      var flat := Streams.Flatten(lists);
      var mapped := Candidates(ctx);
      forall k, j | 0 <= k < |delegates| && 0 <= j < |delegates[k].findAll(ctx)|
        ensures resultMapper(delegates[k].findAll(ctx)[j]) in mapped
      {
        assert lists[k][j] in flat;
        var p :| 0 <= p < |flat| && flat[p] == lists[k][j];
        assert mapped[p] == resultMapper(flat[p]);
      }
    }

    /** Every candidate is the mapping of some delegate's match. */
    lemma CandidatesFromDelegates(ctx: RoutingContext)
      ensures forall m :: 0 <= m < |Candidates(ctx)| ==>
                exists k, y :: 0 <= k < |delegates| && y in delegates[k].findAll(ctx) && Candidates(ctx)[m] == resultMapper(y)
    {
      var lists := DelegateMatches(ctx);
      var flat := Streams.Flatten(lists);
      var mapped := Candidates(ctx);
      forall m | 0 <= m < |mapped|
        ensures exists k, y :: 0 <= k < |delegates| && y in delegates[k].findAll(ctx) && mapped[m] == resultMapper(y)
      {
        var k :| 0 <= k < |lists| && flat[m] in lists[k];
        assert flat[m] in delegates[k].findAll(ctx) && mapped[m] == resultMapper(flat[m]);
      }
    }

    /** Every mapped match of every delegate, each once, in first-seen order. */
    function FindAll(ctx: RoutingContext): (r: seq<Routed<O>>)
      ensures Streams.NoDuplicates(r)
      ensures forall k, j :: 0 <= k < |delegates| && 0 <= j < |delegates[k].findAll(ctx)| ==>
                resultMapper(delegates[k].findAll(ctx)[j]) in r
      ensures forall m :: 0 <= m < |r| ==>
                exists k, y :: 0 <= k < |delegates| && y in delegates[k].findAll(ctx) && r[m] == resultMapper(y)
      ensures forall m :: 0 <= m < |r| ==> r[m] in Candidates(ctx)
      ensures forall i, j :: 0 <= i < j < |r| ==>
                Streams.FirstIndex(Candidates(ctx), r[i]) < Streams.FirstIndex(Candidates(ctx), r[j])
    {
      CandidatesCover(ctx);
      CandidatesFromDelegates(ctx);
      Streams.Distinct(Candidates(ctx))
    }

    /** When every delegate lists its own `find` match among its `findAll` matches, the
        composite does too: the mapped first match is one of the composite's matches. */
    lemma FoundIsListed(ctx: RoutingContext)
      requires forall k :: 0 <= k < |delegates| && delegates[k].find(ctx).Present? ==>
                 delegates[k].find(ctx) in delegates[k].findAll(ctx)
      requires SomeMatch(ctx)
      ensures FirstMatch(delegates, ctx) < |delegates|
      ensures resultMapper(delegates[FirstMatch(delegates, ctx)].find(ctx)) in FindAll(ctx)
    {
      var k := FirstMatch(delegates, ctx);
      var w :| 0 <= w < |delegates| && delegates[w].find(ctx).Present?;
      assert k <= w;
      var found := delegates[k].find(ctx);
      var j :| 0 <= j < |delegates[k].findAll(ctx)| && delegates[k].findAll(ctx)[j] == found;
    }

    /** Zero delegates: nothing is registered. One delegate: it is called with the
        prefix unchanged. Several: every delegate is called once, in order, under its
        index-tagged prefix, and the results are ORed without short-circuiting. */
    method RegisterMetrics(registry: MeterRegistry, idPrefix: MeterIdPrefix)
      returns (registered: bool, ghost calls: seq<DelegateCall>)
      ensures |delegates| == 0 ==> !registered && calls == []
      ensures |delegates| == 1 ==>
                registered == delegates[0].registerMetrics(registry, idPrefix) &&
                calls == [RegisterMetricsCall(0, idPrefix)]
      ensures |delegates| >= 2 ==>
                (registered <==> exists i :: 0 <= i < |delegates| &&
                                   delegates[i].registerMetrics(registry, IndexTagged(idPrefix, i)))
      ensures |delegates| >= 2 ==>
                |calls| == |delegates| &&
                forall i :: 0 <= i < |calls| ==> calls[i] == RegisterMetricsCall(i, IndexTagged(idPrefix, i))
    {
      var numDelegates := |delegates|;
      if numDelegates == 0 {
        return false, [];
      } else if numDelegates == 1 {
        registered := delegates[0].registerMetrics(registry, idPrefix);
        return registered, [RegisterMetricsCall(0, idPrefix)];
      }
      registered := false;
      calls := [];
      for i := 0 to numDelegates
        invariant |calls| == i
        invariant forall j :: 0 <= j < i ==> calls[j] == RegisterMetricsCall(j, IndexTagged(idPrefix, j))
        invariant registered <==> exists j :: 0 <= j < i &&
                                    delegates[j].registerMetrics(registry, IndexTagged(idPrefix, j))
      {
        var delegateIdPrefix := idPrefix.WithTags("index", Decimal.DecimalString(i));
        calls := calls + [RegisterMetricsCall(i, delegateIdPrefix)];
        if delegates[i].registerMetrics(registry, delegateIdPrefix) {
          registered := true;
        }
      }
    }

    /** Every delegate dumps, once each and in order, onto the same sink. */
    method Dump(output: OutputSink) returns (ghost calls: seq<DelegateCall>)
      ensures |calls| == |delegates|
      ensures forall i :: 0 <= i < |calls| ==> calls[i] == DumpCall(i, output)
    {
      calls := [];
      for i := 0 to |delegates|
        invariant |calls| == i
        invariant forall j :: 0 <= j < i ==> calls[j] == DumpCall(j, output)
      {
        calls := calls + [DumpCall(i, output)];
      }
    }
  }
}
