// The dispatch core of the middle generation: the iterator-based
// inner-middleware chain (src/middlewares/inner/base.rs) and the telegram
// observer's `trigger` (src/event/telegram/observer.rs). This generation's
// handler objects (src/event/telegram/handler.rs) are not part of this
// model; they are taken to have the shape of the newest generation's, whose
// types are reused here.

/** src/middlewares/inner/base.rs */
module SrcInnerMiddleware {
  import opened Wrappers
  import TH = TelersHandler
  import opened TelersInnerMiddleware

  /** `wrap_handler_and_middlewares_to_next` over an iterator positioned at
      `pos`: each call clones the iterator and takes its next middleware,
      which receives the chain built from what remains; an exhausted
      iterator calls the handler service. */
  function WrapFrom<R>(service: TH.Service<R>, middlewares: seq<Middleware<R>>, pos: nat): Next<R>
    requires pos <= |middlewares|
    decreases |middlewares| - pos
  {
    if pos == |middlewares| then
      req => CallService(service, req)
    else
      var rest := WrapFrom(service, middlewares, pos + 1);
      req => middlewares[pos](req, rest)
  }

  /** The chain calls the middleware at the iterator's position with the
      chain of the remaining ones; the exhausted chain is the service, with
      a handler error as `Handler` and a failed extraction as
      `Extraction`. */
  lemma WrapFromSteps<R>(service: TH.Service<R>, middlewares: seq<Middleware<R>>, pos: nat, req: R)
    requires pos <= |middlewares|
    ensures pos < |middlewares| ==>
      WrapFrom(service, middlewares, pos)(req) == middlewares[pos](req, WrapFrom(service, middlewares, pos + 1))
    ensures pos == |middlewares| && service(req).Err? ==>
      WrapFrom(service, middlewares, pos)(req) == Err(Extraction(service(req).error))
    ensures pos == |middlewares| && service(req).Ok? && service(req).value.handlerResult.Err? ==>
      WrapFrom(service, middlewares, pos)(req) == Err(Handler(service(req).value.handlerResult.error))
    ensures pos == |middlewares| && service(req).Ok? && service(req).value.handlerResult.Ok? ==>
      WrapFrom(service, middlewares, pos)(req) == Ok(service(req).value)
  {
  }

  /** Middlewares that only pass the request on leave the service's
      outcome, wherever the iterator starts. */
  lemma {:induction false} TransparentFrom<R>(service: TH.Service<R>, middlewares: seq<Middleware<R>>, pos: nat, req: R)
    requires pos <= |middlewares|
    requires forall i, r: R, next: Next<R> | pos <= i < |middlewares| :: middlewares[i](r, next) == next(r)
    ensures WrapFrom(service, middlewares, pos)(req) == CallService(service, req)
    decreases |middlewares| - pos
  {
    if pos < |middlewares| {
      TransparentFrom(service, middlewares, pos + 1, req);
    }
  }

  /** The iterator yields the middlewares in order: when each rewrites the
      request and passes it on, the handler sees the rewrites of the
      remaining middlewares applied first to last. */
  lemma {:induction false} ChainOrderFrom<R>(service: TH.Service<R>, middlewares: seq<Middleware<R>>, updates: seq<R -> R>, pos: nat, req: R)
    requires pos <= |middlewares| == |updates|
    requires forall i, r: R, next: Next<R> | pos <= i < |middlewares| :: middlewares[i](r, next) == next(updates[i](r))
    ensures WrapFrom(service, middlewares, pos)(req) == CallService(service, ApplyInOrder(updates[pos..], req))
    decreases |middlewares| - pos
  {
    if pos < |middlewares| {
      ChainOrderFrom(service, middlewares, updates, pos + 1, updates[pos](req));
      assert updates[pos..][1..] == updates[pos + 1..];
    } else {
      assert updates[pos..] == [];
    }
  }
}

/** src/event/telegram/observer.rs: the same outcome rules as the newest
    generation, with the first inner middleware given the iterator chain
    of the others. */
module SrcObserver {
  import opened Wrappers
  import opened Events
  import TH = TelersHandler
  import opened TelersInnerMiddleware
  import opened SrcInnerMiddleware
  import TO = TelersObserver

  /** One handler's call: the first inner middleware with the chain of the
      others, or the bare service whose extraction error becomes an event
      error while its handler result is kept. */
  function CallHandler<R>(inner: seq<Middleware<R>>, h: TH.HandlerObjectService<R>, req: R): (r: Result<TH.Response<R>, EventErrorKind>)
    ensures |inner| == 0 && h.service(req).Ok? ==> r == Ok(h.service(req).value)
    ensures |inner| == 0 && h.service(req).Err? ==> r == Err(Extraction(h.service(req).error))
    ensures |inner| > 0 ==> r == inner[0](req, WrapFrom(h.service, inner[1..], 0))
  {
    if |inner| == 0 then
      match h.service(req)
      case Ok(response) => Ok(response)
      case Err(e) => Err(Extraction(e))
    else
      inner[0](req, WrapFrom(h.service, inner[1..], 0))
  }

  /** The outcome once the handlers before `i` have been passed over. */
  function OutcomeFrom<R>(handlers: seq<TH.HandlerObjectService<R>>, inner: seq<Middleware<R>>, req: R, i: nat): (r: Result<TO.Response<R>, EventErrorKind>)
    requires i <= |handlers|
    ensures r.Ok? ==> r.value.request == req
    ensures (forall j | i <= j < |handlers| :: !TH.PassesAll(handlers[j].filters, req)) ==> r == Ok(TO.Response(req, TO.Unhandled))
    ensures r.Ok? && !r.value.propagateResult.Unhandled? ==> exists j | i <= j < |handlers| :: TH.PassesAll(handlers[j].filters, req)
    decreases |handlers| - i
  {
    if i == |handlers| then Ok(TO.Response(req, TO.Unhandled))
    else if !TH.PassesAll(handlers[i].filters, req) then OutcomeFrom(handlers, inner, req, i + 1)
    else
      var c := CallHandler(inner, handlers[i], req);
      if c.Err? then Err(c.error)
      else if c.value.handlerResult == Ok(Skip) then OutcomeFrom(handlers, inner, req, i + 1)
      else if c.value.handlerResult == Ok(Cancel) then Ok(TO.Response(req, TO.Rejected))
      else Ok(TO.Response(req, TO.Handled(c.value)))
  }

  /** The outcome of `trigger`: always about the event it was given; the
      observer filters' refusal rejects, and an event no handler's filters
      accept is unhandled. */
  function Outcome<R>(svc: TO.ObserverService<R>, req: R): (r: Result<TO.Response<R>, EventErrorKind>)
    ensures r.Ok? ==> r.value.request == req
    ensures !TH.PassesAll(svc.common.filters, req) ==> r == Ok(TO.Response(req, TO.Rejected))
    ensures TH.PassesAll(svc.common.filters, req) && (forall j | 0 <= j < |svc.handlers| :: !TH.PassesAll(svc.handlers[j].filters, req)) ==>
      r == Ok(TO.Response(req, TO.Unhandled))
    ensures r.Ok? && r.value.propagateResult.Handled? ==> exists j | 0 <= j < |svc.handlers| :: TH.PassesAll(svc.handlers[j].filters, req)
  {
    if !TH.PassesAll(svc.common.filters, req) then Ok(TO.Response(req, TO.Rejected))
    else OutcomeFrom(svc.handlers, svc.inner, req, 0)
  }

  /** `ObserverService::trigger`. */
  method Trigger<R>(svc: TO.ObserverService<R>, req: R) returns (r: Result<TO.Response<R>, EventErrorKind>)
    ensures r == Outcome(svc, req)
  {
    var pass := TH.Check(svc.common, req);
    if !pass {
      return Ok(TO.Response(req, TO.Rejected));
    }
    for i := 0 to |svc.handlers|
      invariant Outcome(svc, req) == OutcomeFrom(svc.handlers, svc.inner, req, i)
    {
      var handler := svc.handlers[i];
      pass := TH.Check(handler, req);
      if !pass {
        continue;
      }
      var response := CallHandler(svc.inner, handler, req);
      if response.Err? {
        return Err(response.error);
      }
      var result := response.value.handlerResult;
      if result == Ok(Skip) {
        continue;
      } else if result == Ok(Cancel) {
        return Ok(TO.Response(req, TO.Rejected));
      } else {
        return Ok(TO.Response(req, TO.Handled(response.value)));
      }
    }
    return Ok(TO.Response(req, TO.Unhandled));
  }

  /** The handler lets the search go on: its filters refuse, or it is
      called and skips. */
  predicate PassedOver<R>(h: TH.HandlerObjectService<R>, inner: seq<Middleware<R>>, req: R) {
    !TH.PassesAll(h.filters, req)
    || (CallHandler(inner, h, req).Ok? && CallHandler(inner, h, req).value.handlerResult == Ok(Skip))
  }

  /** Handlers that are passed over do not affect the outcome. */
  lemma {:induction false} PassOver<R>(handlers: seq<TH.HandlerObjectService<R>>, inner: seq<Middleware<R>>, req: R, i: nat, j: nat)
    requires i <= j <= |handlers|
    requires forall k | i <= k < j :: PassedOver(handlers[k], inner, req)
    ensures OutcomeFrom(handlers, inner, req, i) == OutcomeFrom(handlers, inner, req, j)
    decreases j - i
  {
    if i < j {
      assert PassedOver(handlers[i], inner, req);
      assert OutcomeFrom(handlers, inner, req, i) == OutcomeFrom(handlers, inner, req, i + 1);
      PassOver(handlers, inner, req, i + 1, j);
    }
  }

  /** Failing observer-level filters reject the event, and otherwise the
      first handler that passes its filters and does not skip decides:
      an error of its call is returned, Cancel rejects, and Finish or a
      handler error is handled with its response; when every handler is
      passed over the event is unhandled. */
  lemma OutcomeCases<R>(svc: TO.ObserverService<R>, req: R, j: nat)
    requires j <= |svc.handlers|
    requires forall k | 0 <= k < j :: PassedOver(svc.handlers[k], svc.inner, req)
    ensures !TH.PassesAll(svc.common.filters, req) ==> Outcome(svc, req) == Ok(TO.Response(req, TO.Rejected))
    ensures TH.PassesAll(svc.common.filters, req) && j == |svc.handlers| ==> Outcome(svc, req) == Ok(TO.Response(req, TO.Unhandled))
    ensures TH.PassesAll(svc.common.filters, req) && j < |svc.handlers| && TH.PassesAll(svc.handlers[j].filters, req) ==>
      var c := CallHandler(svc.inner, svc.handlers[j], req);
      (c.Err? ==> Outcome(svc, req) == Err(c.error))
      && (c.Ok? && c.value.handlerResult == Ok(Cancel) ==> Outcome(svc, req) == Ok(TO.Response(req, TO.Rejected)))
      && (c.Ok? && c.value.handlerResult == Ok(Finish) ==> Outcome(svc, req) == Ok(TO.Response(req, TO.Handled(c.value))))
      && (c.Ok? && c.value.handlerResult.Err? ==> Outcome(svc, req) == Ok(TO.Response(req, TO.Handled(c.value))))
  {
    PassOver(svc.handlers, svc.inner, req, 0, j);
  }
}
