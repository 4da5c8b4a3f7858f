// The dispatch core of the oldest generation (src/dispatcher/*): handler
// objects (src/dispatcher/event/telegram/handler.rs, whose Rc-based twin
// src/dispatcher/event/handler.rs has the same shape), `call_handler`
// (src/dispatcher/middlewares/inner/base.rs), the telegram observer
// (src/dispatcher/event/telegram/observer.rs) and its predecessor
// (src/dispatcher/event/telegram_observer.rs).
//
// Requests are a type parameter `R`; filters and handler services are
// function values. A middleware of this generation receives the handler
// service and the iterator of the remaining middlewares, a type that
// cannot be written as a Dafny function type over itself, so middlewares
// are tokens `M` and `run` is what calling one does.

/** src/dispatcher/event/telegram/handler.rs */
module DispatcherHandler {
  import opened Wrappers
  import opened Events

  /** The error a handler service returns: a failed extraction, converted
      into the application's error. */
  datatype ServiceError = ServiceError(message: string)

  /** The handler's return value with the request. The handler returns an
      `EventReturn` and cannot fail. */
  datatype Response<R> = Response(request: R, response: EventReturn)

  type Service<!R> = R -> Result<Response<R>, ServiceError>

  /** `handler_service` applied to a request: the handler runs on the
      extracted arguments; a failed extraction is returned as the error
      and the handler does not run. */
  function HandlerCall<R, A>(extract: R -> Result<A, ServiceError>, handler: A -> EventReturn, req: R): (r: Result<Response<R>, ServiceError>)
    ensures r.Ok? <==> extract(req).Ok?
    ensures r.Ok? ==> r.value == Response(req, handler(extract(req).value))
    ensures r.Err? ==> r.error == extract(req).error
  {
    match extract(req)
    case Ok(args) => Ok(Response(req, handler(args)))
    case Err(e) => Err(e)
  }

  datatype HandlerObjectService<!R> = HandlerObjectService(service: Service<R>, filters: seq<R -> bool>)

  /** `Iterator::all` over the filters, first to last. */
  function AllPass<R>(filters: seq<R -> bool>, req: R): (b: bool)
    ensures b <==> forall i | 0 <= i < |filters| :: filters[i](req)
    decreases |filters|
  {
    |filters| == 0 || (filters[0](req) && AllPass(filters[1..], req))
  }

  /** `HandlerObjectService::check`: every filter accepts; an empty list
      accepts everything. */
  function Check<R>(h: HandlerObjectService<R>, req: R): (b: bool)
    ensures b <==> forall i | 0 <= i < |h.filters| :: h.filters[i](req)
    ensures |h.filters| == 0 ==> b
  {
    AllPass(h.filters, req)
  }

  /** `HandlerObject`: a handler service and its filters. */
  class HandlerObject<R> {
    var service: Service<R>
    var filters: seq<R -> bool>

    /** `new`: the given filters. */
    constructor (service: Service<R>, filters: seq<R -> bool>)
      ensures this.service == service && this.filters == filters
    {
      this.service := service;
      this.filters := filters;
    }

    /** `filter`: one more filter, after the others. */
    method Filter(f: R -> bool)
      modifies this
      ensures filters == old(filters) + [f]
      ensures service == old(service)
    {
      filters := filters + [f];
    }

    /** `new_service`. */
    function NewService(): (s: HandlerObjectService<R>)
      reads this
      ensures s.service == service && s.filters == filters
    {
      HandlerObjectService(service, filters)
    }
  }

  /** The built handlers of `hs`, in order. */
  function Services<R>(hs: seq<HandlerObject<R>>): (r: seq<HandlerObjectService<R>>)
    reads hs
    ensures |r| == |hs| && forall i | 0 <= i < |hs| :: r[i] == hs[i].NewService()
  {
    if |hs| == 0 then [] else [hs[0].NewService()] + Services(hs[1..])
  }
}

/** src/dispatcher/middlewares/inner/base.rs */
module DispatcherInnerMiddleware {
  import opened Wrappers
  import DH = DispatcherHandler

  /** The application errors this core produces (src/error is not part of
      this model). */
  datatype AppErrorKind = Extraction(error: DH.ServiceError) | Middleware(message: string)

  /** What calling middleware `m` does with the handler service, the
      request and the remaining middlewares. */
  type Run<!R, !M> = (M, DH.Service<R>, R, seq<M>) -> Result<DH.Response<R>, AppErrorKind>

  /** `call_handler`: the next middleware when one remains, given the rest;
      otherwise the handler service, whose response is returned without
      looking at it and whose failure becomes an extraction error. */
  function CallHandler<R, M>(run: Run<R, M>, service: DH.Service<R>, req: R, middlewares: seq<M>): (r: Result<DH.Response<R>, AppErrorKind>)
    ensures |middlewares| > 0 ==> r == run(middlewares[0], service, req, middlewares[1..])
    ensures |middlewares| == 0 && service(req).Ok? ==> r == Ok(service(req).value)
    ensures |middlewares| == 0 && service(req).Err? ==> r == Err(Extraction(service(req).error))
  {
    if |middlewares| > 0 then run(middlewares[0], service, req, middlewares[1..])
    else
      match service(req)
      case Ok(response) => Ok(response)
      case Err(e) => Err(Extraction(e))
  }

  /** When every middleware just calls `call_handler` on what it was given,
      the chain gives what the bare service gives. */
  lemma {:induction false} PassThroughChain<R, M>(run: Run<R, M>, service: DH.Service<R>, req: R, middlewares: seq<M>)
    requires forall m, s, r, rest :: run(m, s, r, rest) == CallHandler(run, s, r, rest)
    ensures CallHandler(run, service, req, middlewares) == CallHandler(run, service, req, [])
    decreases |middlewares|
  {
    if |middlewares| > 0 {
      PassThroughChain(run, service, req, middlewares[1..]);
    }
  }
}

/** src/dispatcher/event/telegram/observer.rs */
module DispatcherObserver {
  import opened Wrappers
  import opened Events
  import DH = DispatcherHandler
  import opened DispatcherInnerMiddleware

  datatype PropagateEventResult<R> = Unhandled | Rejected | Handled(response: DH.Response<R>)

  datatype Response<R> = Response(request: R, response: PropagateEventResult<R>)

  /** The built observer (its outer middlewares are run by the router and
      left out here). */
  datatype ObserverService<!R, M> = ObserverService(
    eventName: string,
    handlers: seq<DH.HandlerObjectService<R>>,
    common: DH.HandlerObjectService<R>,
    middlewares: seq<M>)

  /** The outcome once the handlers before `i` have been passed over: a
      skip goes on, a cancel rejects, any other response is handled. */
  function OutcomeFrom<R, M>(run: Run<R, M>, handlers: seq<DH.HandlerObjectService<R>>, middlewares: seq<M>, req: R, i: nat): (r: Result<Response<R>, AppErrorKind>)
    requires i <= |handlers|
    ensures r.Ok? ==> r.value.request == req
    ensures (forall j | i <= j < |handlers| :: !DH.Check(handlers[j], req)) ==> r == Ok(Response(req, Unhandled))
    ensures r.Ok? && !r.value.response.Unhandled? ==> exists j | i <= j < |handlers| :: DH.Check(handlers[j], req)
    decreases |handlers| - i
  {
    if i == |handlers| then Ok(Response(req, Unhandled))
    else if !DH.Check(handlers[i], req) then OutcomeFrom(run, handlers, middlewares, req, i + 1)
    else
      var c := CallHandler(run, handlers[i].service, req, middlewares);
      if c.Err? then Err(c.error)
      else if c.value.response == Skip then OutcomeFrom(run, handlers, middlewares, req, i + 1)
      else if c.value.response == Cancel then Ok(Response(req, Rejected))
      else Ok(Response(req, Handled(c.value)))
  }

  /** The outcome of `trigger`: always about the event it was given; the
      observer filters' refusal rejects, and an event no handler's filters
      accept is unhandled. */
  function Outcome<R, M>(run: Run<R, M>, svc: ObserverService<R, M>, req: R): (r: Result<Response<R>, AppErrorKind>)
    ensures r.Ok? ==> r.value.request == req
    ensures !DH.Check(svc.common, req) ==> r == Ok(Response(req, Rejected))
    ensures DH.Check(svc.common, req) && (forall j | 0 <= j < |svc.handlers| :: !DH.Check(svc.handlers[j], req)) ==>
      r == Ok(Response(req, Unhandled))
    ensures r.Ok? && r.value.response.Handled? ==> exists j | 0 <= j < |svc.handlers| :: DH.Check(svc.handlers[j], req)
  {
    if !DH.Check(svc.common, req) then Ok(Response(req, Rejected))
    else OutcomeFrom(run, svc.handlers, svc.middlewares, req, 0)
  }

  /** `trigger`: the observer's filters, then the handlers in order; each
      call goes through the first middleware when there is one. */
  method Trigger<R, M>(run: Run<R, M>, svc: ObserverService<R, M>, req: R) returns (r: Result<Response<R>, AppErrorKind>)
    ensures r == Outcome(run, svc, req)
  {
    if !DH.Check(svc.common, req) {
      return Ok(Response(req, Rejected));
    }
    for i := 0 to |svc.handlers|
      invariant Outcome(run, svc, req) == OutcomeFrom(run, svc.handlers, svc.middlewares, req, i)
    {
      var handler := svc.handlers[i];
      if !DH.Check(handler, req) {
        continue;
      }
      var res;
      if |svc.middlewares| == 0 {
        var called := handler.service(req);
        if called.Err? {
          return Err(Extraction(called.error));
        }
        res := called.value;
      } else {
        var called := run(svc.middlewares[0], handler.service, req, svc.middlewares[1..]);
        if called.Err? {
          return Err(called.error);
        }
        res := called.value;
      }
      if res.response == Skip {
        continue;
      } else if res.response == Cancel {
        return Ok(Response(req, Rejected));
      } else {
        return Ok(Response(req, Handled(res)));
      }
    }
    return Ok(Response(req, Unhandled));
  }

  /** The handler lets the search go on: its filters refuse, or its call
      answers skip. */
  predicate PassedOver<R, M>(run: Run<R, M>, h: DH.HandlerObjectService<R>, middlewares: seq<M>, req: R) {
    !DH.Check(h, req)
    || (CallHandler(run, h.service, req, middlewares).Ok? && CallHandler(run, h.service, req, middlewares).value.response == Skip)
  }

  lemma {:induction false} PassOver<R, M>(run: Run<R, M>, handlers: seq<DH.HandlerObjectService<R>>, middlewares: seq<M>, req: R, i: nat, j: nat)
    requires i <= j <= |handlers|
    requires forall k | i <= k < j :: PassedOver(run, handlers[k], middlewares, req)
    ensures OutcomeFrom(run, handlers, middlewares, req, i) == OutcomeFrom(run, handlers, middlewares, req, j)
    decreases j - i
  {
    if i < j {
      assert PassedOver(run, handlers[i], middlewares, req);
      assert OutcomeFrom(run, handlers, middlewares, req, i) == OutcomeFrom(run, handlers, middlewares, req, i + 1);
      PassOver(run, handlers, middlewares, req, i + 1, j);
    }
  }

  /** Refusing observer filters reject; otherwise the first handler that
      passes its filters and does not skip decides: its error is returned,
      a cancel rejects, any other response is handled; when all are passed
      over the event is unhandled. */
  lemma OutcomeCases<R, M>(run: Run<R, M>, svc: ObserverService<R, M>, req: R, j: nat)
    requires j <= |svc.handlers|
    requires forall k | 0 <= k < j :: PassedOver(run, svc.handlers[k], svc.middlewares, req)
    ensures !DH.Check(svc.common, req) ==> Outcome(run, svc, req) == Ok(Response(req, Rejected))
    ensures DH.Check(svc.common, req) && j == |svc.handlers| ==> Outcome(run, svc, req) == Ok(Response(req, Unhandled))
    ensures DH.Check(svc.common, req) && j < |svc.handlers| && DH.Check(svc.handlers[j], req) ==>
      var c := CallHandler(run, svc.handlers[j].service, req, svc.middlewares);
      (c.Err? ==> Outcome(run, svc, req) == Err(c.error))
      && (c.Ok? && c.value.response == Cancel ==> Outcome(run, svc, req) == Ok(Response(req, Rejected)))
      && (c.Ok? && c.value.response == Finish ==> Outcome(run, svc, req) == Ok(Response(req, Handled(c.value))))
  {
    PassOver(run, svc.handlers, svc.middlewares, req, 0, j);
  }

  /** `Observer`: handlers in registration order, the common handler with
      the observer's filters, and the inner middlewares. */
  class Observer<R, M> {
    const eventName: string
    var handlers: seq<DH.HandlerObject<R>>
    const common: DH.HandlerObject<R>
    var middlewares: seq<M>

    ghost predicate Valid()
      reads this
    {
      common !in handlers
    }

    /** `new`: nothing registered; the common handler's service is never
        called, so any service stands for it. */
    constructor (eventName: string, unused: DH.Service<R>)
      ensures Valid() && fresh(common)
      ensures this.eventName == eventName && handlers == [] && common.filters == [] && middlewares == []
    {
      this.eventName := eventName;
      handlers := [];
      common := new DH.HandlerObject(unused, []);
      middlewares := [];
    }

    /** `new_service`. */
    function ToService(): (s: ObserverService<R, M>)
      reads this, common, handlers
      ensures s.eventName == eventName && s.middlewares == middlewares
      ensures s.common == common.NewService() && s.handlers == DH.Services(handlers)
    {
      ObserverService(eventName, DH.Services(handlers), common.NewService(), middlewares)
    }

    /** `register`: a handler with its filters, after the others. */
    method Register(service: DH.Service<R>, filters: seq<R -> bool>)
      requires Valid()
      modifies this
      ensures Valid() && middlewares == old(middlewares)
      ensures ToService() == old(ToService()).(handlers := old(ToService()).handlers + [DH.HandlerObjectService(service, filters)])
    {
      var h := new DH.HandlerObject(service, filters);
      handlers := handlers + [h];
      assert handlers[..|handlers| - 1] == old(handlers);
    }

    /** `register_no_filters`. */
    method RegisterNoFilters(service: DH.Service<R>)
      requires Valid()
      modifies this
      ensures Valid() && middlewares == old(middlewares)
      ensures ToService() == old(ToService()).(handlers := old(ToService()).handlers + [DH.HandlerObjectService(service, [])])
    {
      Register(service, []);
    }

    /** `filter`: an observer-level filter; the handlers keep theirs. */
    method Filter(f: R -> bool)
      requires Valid()
      modifies common
      ensures Valid()
      ensures ToService() == old(ToService()).(common := old(ToService()).common.(filters := old(ToService()).common.filters + [f]))
    {
      common.Filter(f);
    }
  }
}

/** src/dispatcher/event/telegram_observer.rs: no middlewares, and any
    response but skip, cancel included, is handled. */
module OldestObserver {
  import opened Wrappers
  import opened Events
  import DH = DispatcherHandler
  import DIM = DispatcherInnerMiddleware
  import DO = DispatcherObserver

  datatype Response<R> = Response(request: R, response: DO.PropagateEventResult<R>)

  /** The built observer: its handlers and the common handler. */
  datatype ObserverService<!R> = ObserverService(eventName: string, handlers: seq<DH.HandlerObjectService<R>>, common: DH.HandlerObjectService<R>)

  /** The outcome once the handlers before `i` have been passed over: a
      skip goes on, any other response is handled, so the handlers never
      reject. */
  function OutcomeFrom<R>(handlers: seq<DH.HandlerObjectService<R>>, req: R, i: nat): (r: Result<Response<R>, DH.ServiceError>)
    requires i <= |handlers|
    ensures r.Ok? ==> r.value.request == req && !r.value.response.Rejected?
    ensures (forall j | i <= j < |handlers| :: !DH.Check(handlers[j], req)) ==> r == Ok(Response(req, DO.Unhandled))
    ensures r.Ok? && r.value.response.Handled? ==> exists j | i <= j < |handlers| :: DH.Check(handlers[j], req)
    decreases |handlers| - i
  {
    if i == |handlers| then Ok(Response(req, DO.Unhandled))
    else if !DH.Check(handlers[i], req) then OutcomeFrom(handlers, req, i + 1)
    else
      var c := handlers[i].service(req);
      if c.Err? then Err(c.error)
      else if c.value.response == Skip then OutcomeFrom(handlers, req, i + 1)
      else Ok(Response(req, DO.Handled(c.value)))
  }

  /** The outcome of `trigger_without_self`: rejected exactly when the
      common filters refuse. */
  function Outcome<R>(handlers: seq<DH.HandlerObjectService<R>>, common: DH.HandlerObjectService<R>, req: R): (r: Result<Response<R>, DH.ServiceError>)
    ensures r.Ok? ==> r.value.request == req
    ensures !DH.Check(common, req) <==> r == Ok(Response(req, DO.Rejected))
    ensures DH.Check(common, req) && (forall j | 0 <= j < |handlers| :: !DH.Check(handlers[j], req)) ==>
      r == Ok(Response(req, DO.Unhandled))
  {
    if !DH.Check(common, req) then Ok(Response(req, DO.Rejected))
    else OutcomeFrom(handlers, req, 0)
  }

  /** `trigger_without_self`. */
  method TriggerWithoutSelf<R>(handlers: seq<DH.HandlerObjectService<R>>, common: DH.HandlerObjectService<R>, req: R)
    returns (r: Result<Response<R>, DH.ServiceError>)
    ensures r == Outcome(handlers, common, req)
  {
    if !DH.Check(common, req) {
      return Ok(Response(req, DO.Rejected));
    }
    for i := 0 to |handlers|
      invariant Outcome(handlers, common, req) == OutcomeFrom(handlers, req, i)
    {
      if !DH.Check(handlers[i], req) {
        continue;
      }
      var called := handlers[i].service(req);
      match called
      case Ok(res) =>
        if res.response == Skip {
          continue;
        }
        return Ok(Response(req, DO.Handled(res)));
      case Err(err) =>
        return Err(err);
    }
    return Ok(Response(req, DO.Unhandled));
  }

  predicate PassedOver<R>(h: DH.HandlerObjectService<R>, req: R) {
    !DH.Check(h, req) || (h.service(req).Ok? && h.service(req).value.response == Skip)
  }

  lemma {:induction false} PassOver<R>(handlers: seq<DH.HandlerObjectService<R>>, req: R, i: nat, j: nat)
    requires i <= j <= |handlers|
    requires forall k | i <= k < j :: PassedOver(handlers[k], req)
    ensures OutcomeFrom(handlers, req, i) == OutcomeFrom(handlers, req, j)
    decreases j - i
  {
    if i < j {
      assert PassedOver(handlers[i], req);
      assert OutcomeFrom(handlers, req, i) == OutcomeFrom(handlers, req, i + 1);
      PassOver(handlers, req, i + 1, j);
    }
  }

  /** Refusing common filters reject; otherwise the first handler that
      passes its filters and does not skip decides: its error is returned
      at once and any other response, a cancel included, is handled; when
      all are passed over the event is unhandled. */
  lemma OutcomeCases<R>(handlers: seq<DH.HandlerObjectService<R>>, common: DH.HandlerObjectService<R>, req: R, j: nat)
    requires j <= |handlers|
    requires forall k | 0 <= k < j :: PassedOver(handlers[k], req)
    ensures !DH.Check(common, req) ==> Outcome(handlers, common, req) == Ok(Response(req, DO.Rejected))
    ensures DH.Check(common, req) && j == |handlers| ==> Outcome(handlers, common, req) == Ok(Response(req, DO.Unhandled))
    ensures DH.Check(common, req) && j < |handlers| && DH.Check(handlers[j], req) ==>
      var c := handlers[j].service(req);
      (c.Err? ==> Outcome(handlers, common, req) == Err(c.error))
      && (c.Ok? && c.value.response != Skip ==> Outcome(handlers, common, req) == Ok(Response(req, DO.Handled(c.value))))
  {
    PassOver(handlers, req, 0, j);
  }

  /** The generations differ on cancel: with no middlewares, a handler
      that cancels after the earlier ones skipped leaves the event handled
      here and rejected in the later observer. */
  lemma CancelDiffers<R, M>(run: DIM.Run<R, M>, svc: DO.ObserverService<R, M>, req: R, j: nat)
    requires |svc.middlewares| == 0 && DH.Check(svc.common, req)
    requires j < |svc.handlers| && DH.Check(svc.handlers[j], req)
    requires forall k | 0 <= k < j :: PassedOver(svc.handlers[k], req)
    requires svc.handlers[j].service(req).Ok? && svc.handlers[j].service(req).value.response == Cancel
    ensures Outcome(svc.handlers, svc.common, req) == Ok(Response(req, DO.Handled(svc.handlers[j].service(req).value)))
    ensures DO.Outcome(run, svc, req) == Ok(DO.Response(req, DO.Rejected))
  {
    OutcomeCases(svc.handlers, svc.common, req, j);
    forall k | 0 <= k < j
      ensures DO.PassedOver(run, svc.handlers[k], svc.middlewares, req)
    {
      assert PassedOver(svc.handlers[k], req);
    }
    DO.OutcomeCases(run, svc, req, j);
  }

  /** `EventObserver`: handlers in registration order and the common
      handler with the observer's filters. */
  class EventObserver<R> {
    const eventName: string
    var handlers: seq<DH.HandlerObject<R>>
    const common: DH.HandlerObject<R>

    ghost predicate Valid()
      reads this
    {
      common !in handlers
    }

    constructor (eventName: string, unused: DH.Service<R>)
      ensures Valid() && fresh(common)
      ensures this.eventName == eventName && handlers == [] && common.filters == []
    {
      this.eventName := eventName;
      handlers := [];
      common := new DH.HandlerObject(unused, []);
    }

    /** `new_service`. */
    function ToService(): (s: ObserverService<R>)
      reads this, common, handlers
      ensures s.eventName == eventName && s.handlers == DH.Services(handlers) && s.common == common.NewService()
    {
      ObserverService(eventName, DH.Services(handlers), common.NewService())
    }

    /** `register`: a handler with its filters, after the others. */
    method Register(service: DH.Service<R>, filters: seq<R -> bool>)
      requires Valid()
      modifies this
      ensures Valid()
      ensures ToService() == old(ToService()).(handlers := old(ToService()).handlers + [DH.HandlerObjectService(service, filters)])
    {
      var h := new DH.HandlerObject(service, filters);
      handlers := handlers + [h];
      assert handlers[..|handlers| - 1] == old(handlers);
    }

    /** `filter`: an observer-level filter. */
    method Filter(f: R -> bool)
      requires Valid()
      modifies common
      ensures Valid()
      ensures ToService() == old(ToService()).(common := old(ToService()).common.(filters := old(ToService()).common.filters + [f]))
    {
      common.Filter(f);
    }
  }
}
