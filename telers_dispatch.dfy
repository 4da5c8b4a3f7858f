// The dispatch core of the newest generation: handler objects
// (telers/src/event/telegram/handler.rs), the inner-middleware chain
// (telers/src/middlewares/inner/base.rs) and the telegram observer
// (telers/src/event/telegram/observer.rs).
//
// A request (bot, update and shared context) is a type parameter `R`.
// Filters, handler services and middlewares are user code: each is a
// function value over requests. Their effects on the shared context are
// not modelled.

/** telers/src/event/telegram/handler.rs */
module TelersHandler {
  import opened Wrappers
  import opened Events

  /** The error a handler returns; its content is the handler's own. */
  datatype HandlerError = HandlerError(message: string)

  /** Why the handler's arguments could not be built from the request. */
  datatype ExtractionError = ExtractionError(message: string)

  /** A handler's result, with the request it ran on. */
  datatype Response<R> = Response(request: R, handlerResult: Result<EventReturn, HandlerError>)

  /** The service `handler_service` builds: extract, then call. */
  type Service<!R> = R -> Result<Response<R>, ExtractionError>

  /** `handler_service` applied to a request: the handler is called on the
      extracted arguments and its result recorded; when extraction fails the
      handler is not called and the extraction error is returned. */
  function HandlerCall<R, A>(extract: R -> Result<A, ExtractionError>,
                             handler: A -> Result<EventReturn, HandlerError>, req: R): (r: Result<Response<R>, ExtractionError>)
    ensures r.Ok? <==> extract(req).Ok?
    ensures r.Ok? ==> r.value.request == req && r.value.handlerResult == handler(extract(req).value)
    ensures r.Err? ==> r.error == extract(req).error
  {
    match extract(req)
    case Ok(args) => Ok(Response(req, handler(args)))
    case Err(e) => Err(e)
  }

  /** A built handler: its service and its filters. */
  datatype HandlerObjectService<!R> = HandlerObjectService(service: Service<R>, filters: seq<R -> bool>)

  /** Every filter accepts the request. */
  predicate PassesAll<R>(filters: seq<R -> bool>, req: R) {
    forall i | 0 <= i < |filters| :: filters[i](req)
  }

  /** Appending filters conjoins them with the ones already there. */
  lemma PassesAllAppend<R>(fs: seq<R -> bool>, gs: seq<R -> bool>, req: R)
    ensures PassesAll(fs + gs, req) <==> PassesAll(fs, req) && PassesAll(gs, req)
  {
    if PassesAll(fs, req) && PassesAll(gs, req) {
      forall i | 0 <= i < |fs + gs|
        ensures (fs + gs)[i](req)
      {
        if i >= |fs| {
          assert (fs + gs)[i] == gs[i - |fs|];
        }
      }
    }
    if PassesAll(fs + gs, req) {
      forall i | 0 <= i < |fs|
        ensures fs[i](req)
      {
        assert (fs + gs)[i] == fs[i];
      }
      forall i | 0 <= i < |gs|
        ensures gs[i](req)
      {
        assert (fs + gs)[|fs| + i] == gs[i];
      }
    }
  }

  /** `HandlerObjectService::check`: the filters in order, stopping at the
      first that refuses; no filters accept. */
  method Check<R>(h: HandlerObjectService<R>, req: R) returns (b: bool)
    ensures b <==> PassesAll(h.filters, req)
  {
    for i := 0 to |h.filters|
      invariant forall j | 0 <= j < i :: h.filters[j](req)
    {
      if !h.filters[i](req) {
        return false;
      }
    }
    return true;
  }

  /** `HandlerObject`: a handler service and the filters registered on it. */
  class HandlerObject<R> {
    var service: Service<R>
    var filters: seq<R -> bool>

    /** `new`: no filters. */
    constructor (service: Service<R>)
      ensures this.service == service && filters == []
    {
      this.service := service;
      filters := [];
    }

    /** `filter`: one more filter, after the others. */
    method Filter(f: R -> bool)
      modifies this
      ensures filters == old(filters) + [f]
      ensures service == old(service)
    {
      filters := filters + [f];
    }

    /** `filters`: several more, in the order given. */
    method Filters(fs: seq<R -> bool>)
      modifies this
      ensures filters == old(filters) + fs
      ensures service == old(service)
    {
      filters := filters + fs;
    }

    /** `new_service`: the service and a copy of the filters. */
    function NewService(): (s: HandlerObjectService<R>)
      reads this
      ensures s.service == service && s.filters == filters
    {
      HandlerObjectService(service, filters)
    }
  }
}

/** telers/src/middlewares/inner/base.rs */
module TelersInnerMiddleware {
  import opened Wrappers
  import opened Events
  import TH = TelersHandler

  /** The errors an observer reports (telers/src/errors is not part of this
      model; only the kinds this core produces are listed). */
  datatype EventErrorKind =
    | Extraction(extraction: TH.ExtractionError)
    | Handler(handler: TH.HandlerError)
    | Middleware(message: string)

  /** What a middleware calls to go on. */
  type Next<!R> = R -> Result<TH.Response<R>, EventErrorKind>

  /** An inner middleware: the request and the rest of the chain. */
  type Middleware<!R> = (R, Next<R>) -> Result<TH.Response<R>, EventErrorKind>

  /** The end of the chain: the handler service itself, whose extraction
      failure and whose handler error both become event errors. */
  function CallService<R>(service: TH.Service<R>, req: R): (r: Result<TH.Response<R>, EventErrorKind>)
    ensures service(req).Err? ==> r == Err(Extraction(service(req).error))
    ensures service(req).Ok? && service(req).value.handlerResult.Ok? ==> r == Ok(service(req).value)
    ensures service(req).Ok? && service(req).value.handlerResult.Err? ==>
      r == Err(Handler(service(req).value.handlerResult.error))
  {
    match service(req)
    case Ok(response) =>
      if response.handlerResult.Ok? then Ok(response) else Err(Handler(response.handlerResult.error))
    case Err(e) => Err(Extraction(e))
  }

  /** `wrap_handler_and_middlewares_to_next`: the first middleware is
      called with the chain of the others. */
  function WrapToNext<R>(service: TH.Service<R>, middlewares: seq<Middleware<R>>): Next<R>
    decreases |middlewares|
  {
    if |middlewares| == 0 then
      req => CallService(service, req)
    else
      var rest := WrapToNext(service, middlewares[1..]);
      req => middlewares[0](req, rest)
  }

  /** Middlewares that only pass the request on leave the handler's
      outcome as the bare service gives it. */
  lemma {:induction false} TransparentChain<R>(service: TH.Service<R>, middlewares: seq<Middleware<R>>, req: R)
    requires forall i, r: R, next: Next<R> | 0 <= i < |middlewares| :: middlewares[i](r, next) == next(r)
    ensures WrapToNext(service, middlewares)(req) == CallService(service, req)
    decreases |middlewares|
  {
    if |middlewares| > 0 {
      TransparentChain(service, middlewares[1..], req);
    }
  }

  /** `updates` applied in order: the first one first. */
  function ApplyInOrder<R>(updates: seq<R -> R>, req: R): R
    decreases |updates|
  {
    if |updates| == 0 then req else ApplyInOrder(updates[1..], updates[0](req))
  }

  /** Registration order is outer to inner: when each middleware rewrites
      the request and passes it on, the handler sees the request rewritten
      by the first middleware first. */
  lemma {:induction false} ChainOrder<R>(service: TH.Service<R>, middlewares: seq<Middleware<R>>, updates: seq<R -> R>, req: R)
    requires |updates| == |middlewares|
    requires forall i, r: R, next: Next<R> | 0 <= i < |middlewares| :: middlewares[i](r, next) == next(updates[i](r))
    ensures WrapToNext(service, middlewares)(req) == CallService(service, ApplyInOrder(updates, req))
    decreases |middlewares|
  {
    if |middlewares| > 0 {
      ChainOrder(service, middlewares[1..], updates[1..], updates[0](req));
    }
  }
}

/** telers/src/event/telegram/observer.rs */
module TelersObserver {
  import opened Wrappers
  import opened Events
  import TH = TelersHandler
  import opened TelersInnerMiddleware

  /** What an observer made of an event. */
  datatype PropagateEventResult<R> = Unhandled | Rejected | Handled(response: TH.Response<R>)

  /** The observer's answer, with the request it was given. */
  datatype Response<R> = Response(request: R, propagateResult: PropagateEventResult<R>)

  /** The built observer: its handlers in registration order, the common
      handler that carries the observer-level filters, and the inner
      middlewares (its outer middlewares are run by the router and left
      out here). */
  datatype ObserverService<!R> = ObserverService(
    eventName: string,
    handlers: seq<TH.HandlerObjectService<R>>,
    common: TH.HandlerObjectService<R>,
    inner: seq<Middleware<R>>)

  /** One handler's call: through the inner middlewares when there are
      any, else the bare service, whose extraction error becomes an event
      error and whose handler result is kept as it is. */
  function CallHandler<R>(inner: seq<Middleware<R>>, h: TH.HandlerObjectService<R>, req: R): (r: Result<TH.Response<R>, EventErrorKind>)
    ensures |inner| == 0 && h.service(req).Ok? ==> r == Ok(h.service(req).value)
    ensures |inner| == 0 && h.service(req).Err? ==> r == Err(Extraction(h.service(req).error))
    ensures |inner| > 0 ==> r == inner[0](req, WrapToNext(h.service, inner[1..]))
  {
    if |inner| == 0 then
      match h.service(req)
      case Ok(response) => Ok(response)
      case Err(e) => Err(Extraction(e))
    else
      inner[0](req, WrapToNext(h.service, inner[1..]))
  }

  /** The outcome of `trigger` once the handlers before `i` have been
      passed over. */
  function OutcomeFrom<R>(handlers: seq<TH.HandlerObjectService<R>>, inner: seq<Middleware<R>>, req: R, i: nat): (r: Result<Response<R>, EventErrorKind>)
    requires i <= |handlers|
    ensures r.Ok? ==> r.value.request == req
    ensures (forall j | i <= j < |handlers| :: !TH.PassesAll(handlers[j].filters, req)) ==> r == Ok(Response(req, Unhandled))
    ensures r.Ok? && !r.value.propagateResult.Unhandled? ==> exists j | i <= j < |handlers| :: TH.PassesAll(handlers[j].filters, req)
    decreases |handlers| - i
  {
    if i == |handlers| then Ok(Response(req, Unhandled))
    else if !TH.PassesAll(handlers[i].filters, req) then OutcomeFrom(handlers, inner, req, i + 1)
    else
      var c := CallHandler(inner, handlers[i], req);
      if c.Err? then Err(c.error)
      else if c.value.handlerResult == Ok(Skip) then OutcomeFrom(handlers, inner, req, i + 1)
      else if c.value.handlerResult == Ok(Cancel) then Ok(Response(req, Rejected))
      else Ok(Response(req, Handled(c.value)))
  }

  /** The outcome of `trigger`: always about the event it was given; the
      common filters' refusal rejects, and an event no handler's filters
      accept is unhandled. */
  function Outcome<R>(svc: ObserverService<R>, req: R): (r: Result<Response<R>, EventErrorKind>)
    ensures r.Ok? ==> r.value.request == req
    ensures !TH.PassesAll(svc.common.filters, req) ==> r == Ok(Response(req, Rejected))
    ensures TH.PassesAll(svc.common.filters, req) && (forall j | 0 <= j < |svc.handlers| :: !TH.PassesAll(svc.handlers[j].filters, req)) ==>
      r == Ok(Response(req, Unhandled))
    ensures r.Ok? && r.value.propagateResult.Handled? ==> exists j | 0 <= j < |svc.handlers| :: TH.PassesAll(svc.handlers[j].filters, req)
  {
    if !TH.PassesAll(svc.common.filters, req) then Ok(Response(req, Rejected))
    else OutcomeFrom(svc.handlers, svc.inner, req, 0)
  }

  /** `trigger`: the common filters, then each handler in order until one
      concludes. */
  method Trigger<R>(svc: ObserverService<R>, req: R) returns (r: Result<Response<R>, EventErrorKind>)
    ensures r == Outcome(svc, req)
  {
    var pass := TH.Check(svc.common, req);
    if !pass {
      return Ok(Response(req, Rejected));
    }
    for i := 0 to |svc.handlers|
      invariant Outcome(svc, req) == OutcomeFrom(svc.handlers, svc.inner, req, i)
    {
      var handler := svc.handlers[i];
      pass := TH.Check(handler, req);
      if !pass {
        continue;
      }
      var response := CallHandler(svc.inner, handler, req);
      if response.Err? {
        return Err(response.error);
      }
      var result := response.value.handlerResult;
      if result == Ok(Skip) {
        continue;
      } else if result == Ok(Cancel) {
        return Ok(Response(req, Rejected));
      } else {
        return Ok(Response(req, Handled(response.value)));
      }
    }
    return Ok(Response(req, Unhandled));
  }

  /** The handler lets the search go on: its filters refuse, or it is
      called and skips. */
  predicate PassedOver<R>(h: TH.HandlerObjectService<R>, inner: seq<Middleware<R>>, req: R) {
    !TH.PassesAll(h.filters, req)
    || (CallHandler(inner, h, req).Ok? && CallHandler(inner, h, req).value.handlerResult == Ok(Skip))
  }

  /** Handlers that are passed over do not affect the outcome. */
  lemma {:induction false} PassOver<R>(handlers: seq<TH.HandlerObjectService<R>>, inner: seq<Middleware<R>>, req: R, i: nat, j: nat)
    requires i <= j <= |handlers|
    requires forall k | i <= k < j :: PassedOver(handlers[k], inner, req)
    ensures OutcomeFrom(handlers, inner, req, i) == OutcomeFrom(handlers, inner, req, j)
    decreases j - i
  {
    if i < j {
      assert PassedOver(handlers[i], inner, req);
      assert OutcomeFrom(handlers, inner, req, i) == OutcomeFrom(handlers, inner, req, i + 1);
      PassOver(handlers, inner, req, i + 1, j);
    }
  }

  /** Failing observer-level filters reject the event before any handler
      is tried. */
  lemma CommonFiltersReject<R>(svc: ObserverService<R>, req: R)
    requires !TH.PassesAll(svc.common.filters, req)
    ensures Outcome(svc, req) == Ok(Response(req, Rejected))
  {
  }

  /** The first handler that passes its filters and does not skip decides
      the outcome: an error of its call is returned, Cancel rejects, and
      Finish or a handler error is handled with its response. */
  lemma FirstConcludingHandler<R>(svc: ObserverService<R>, req: R, j: nat)
    requires TH.PassesAll(svc.common.filters, req)
    requires j < |svc.handlers| && TH.PassesAll(svc.handlers[j].filters, req)
    requires forall k | 0 <= k < j :: PassedOver(svc.handlers[k], svc.inner, req)
    ensures var c := CallHandler(svc.inner, svc.handlers[j], req);
      (c.Err? ==> Outcome(svc, req) == Err(c.error))
      && (c.Ok? && c.value.handlerResult == Ok(Skip) ==> Outcome(svc, req) == OutcomeFrom(svc.handlers, svc.inner, req, j + 1))
      && (c.Ok? && c.value.handlerResult == Ok(Cancel) ==> Outcome(svc, req) == Ok(Response(req, Rejected)))
      && (c.Ok? && c.value.handlerResult == Ok(Finish) ==> Outcome(svc, req) == Ok(Response(req, Handled(c.value))))
      && (c.Ok? && c.value.handlerResult.Err? ==> Outcome(svc, req) == Ok(Response(req, Handled(c.value))))
  {
    PassOver(svc.handlers, svc.inner, req, 0, j);
  }

  /** When every handler is passed over the event is unhandled. */
  lemma AllPassedOverIsUnhandled<R>(svc: ObserverService<R>, req: R)
    requires TH.PassesAll(svc.common.filters, req)
    requires forall k | 0 <= k < |svc.handlers| :: PassedOver(svc.handlers[k], svc.inner, req)
    ensures Outcome(svc, req) == Ok(Response(req, Unhandled))
  {
    PassOver(svc.handlers, svc.inner, req, 0, |svc.handlers|);
  }

  /** A handler error is a handled outcome without inner middlewares, but
      an event error through a chain of them, even of ones that only pass
      the request on. */
  lemma HandlerErrorDependsOnMiddlewares<R>(inner: seq<Middleware<R>>, h: TH.HandlerObjectService<R>, req: R)
    requires h.service(req).Ok? && h.service(req).value.handlerResult.Err?
    requires forall i, r: R, next: Next<R> | 0 <= i < |inner| :: inner[i](r, next) == next(r)
    ensures |inner| == 0 ==> CallHandler(inner, h, req) == Ok(h.service(req).value)
    ensures |inner| > 0 ==> CallHandler(inner, h, req) == Err(Handler(h.service(req).value.handlerResult.error))
  {
    if |inner| > 0 {
      TransparentChain(h.service, inner[1..], req);
    }
  }

  /** Handlers after the one that concludes never run: replacing them
      leaves the outcome alone. */
  lemma LaterHandlersIgnored<R>(svc: ObserverService<R>, req: R, j: nat, later: seq<TH.HandlerObjectService<R>>)
    requires j < |svc.handlers|
    requires forall k | 0 <= k < j :: PassedOver(svc.handlers[k], svc.inner, req)
    requires !PassedOver(svc.handlers[j], svc.inner, req)
    ensures Outcome(svc.(handlers := svc.handlers[..j + 1] + later), req) == Outcome(svc, req)
  {
    var hs := svc.handlers[..j + 1] + later;
    assert forall k | 0 <= k <= j :: hs[k] == svc.handlers[k];
    PassOver(svc.handlers, svc.inner, req, 0, j);
    PassOver(hs, svc.inner, req, 0, j);
  }

  /** A handler registered last is tried only when all the earlier ones
      leave the event unhandled. */
  lemma {:induction false} AppendedHandlerTriedLast<R>(handlers: seq<TH.HandlerObjectService<R>>, inner: seq<Middleware<R>>,
                                                      req: R, h: TH.HandlerObjectService<R>, i: nat)
    requires i <= |handlers|
    ensures OutcomeFrom(handlers + [h], inner, req, i)
        == if OutcomeFrom(handlers, inner, req, i) == Ok(Response(req, Unhandled))
           then OutcomeFrom(handlers + [h], inner, req, |handlers|)
           else OutcomeFrom(handlers, inner, req, i)
    decreases |handlers| - i
  {
    if i < |handlers| {
      assert (handlers + [h])[i] == handlers[i];
      AppendedHandlerTriedLast(handlers, inner, req, h, i + 1);
    }
  }

  /** Adding an observer-level filter rejects exactly the events it
      refuses and leaves every other outcome as it was. */
  lemma AddedCommonFilter<R>(svc: ObserverService<R>, req: R, f: R -> bool)
    ensures var svc' := svc.(common := svc.common.(filters := svc.common.filters + [f]));
      Outcome(svc', req) == if f(req) then Outcome(svc, req) else Ok(Response(req, Rejected))
  {
    TH.PassesAllAppend(svc.common.filters, [f], req);
    assert TH.PassesAll([f], req) <==> f(req) by {
      assert [f][0] == f;
    }
  }

  /** The built handlers of `hs`, in order. */
  function Services<R>(hs: seq<TH.HandlerObject<R>>): (r: seq<TH.HandlerObjectService<R>>)
    reads hs
    ensures |r| == |hs| && forall i | 0 <= i < |hs| :: r[i] == hs[i].NewService()
  {
    if |hs| == 0 then [] else [hs[0].NewService()] + Services(hs[1..])
  }

  /** `Observer`: the handlers registered so far, the common handler that
      holds the observer-level filters, and the inner middlewares. */
  class Observer<R> {
    const eventName: string
    var handlers: seq<TH.HandlerObject<R>>
    const common: TH.HandlerObject<R>
    var inner: seq<Middleware<R>>

    /** The common handler is not one of the registered ones. */
    ghost predicate Valid()
      reads this
    {
      common !in handlers
    }

    /** `new`: no handlers, no filters, no middlewares. The common
        handler's service is never called; any service stands for it. */
    constructor (eventName: string, unused: TH.Service<R>)
      ensures Valid() && fresh(common)
      ensures this.eventName == eventName && handlers == [] && common.filters == [] && inner == []
    {
      this.eventName := eventName;
      handlers := [];
      common := new TH.HandlerObject(unused);
      inner := [];
    }

    /** `to_service_provider`. */
    function ToService(): (s: ObserverService<R>)
      reads this, common, handlers
      ensures s.eventName == eventName && s.inner == inner
      ensures s.common == common.NewService() && s.handlers == Services(handlers)
    {
      ObserverService(eventName, Services(handlers), common.NewService(), inner)
    }

    /** `register`: a handler with no filters, after the others; the
        handler object is returned so that filters can be added to it. */
    method Register(service: TH.Service<R>) returns (h: TH.HandlerObject<R>)
      requires Valid()
      modifies this
      ensures Valid() && fresh(h)
      ensures handlers == old(handlers) + [h] && inner == old(inner)
      ensures ToService() == old(ToService()).(handlers := old(ToService()).handlers + [TH.HandlerObjectService(service, [])])
    {
      h := new TH.HandlerObject(service);
      handlers := handlers + [h];
      assert handlers[..|handlers| - 1] == old(handlers);
    }

    /** `filter`: one more observer-level filter; the handlers keep
        theirs. */
    method Filter(f: R -> bool)
      requires Valid()
      modifies common
      ensures Valid()
      ensures ToService() == old(ToService()).(common := old(ToService()).common.(filters := old(ToService()).common.filters + [f]))
    {
      common.Filter(f);
    }
  }
}
