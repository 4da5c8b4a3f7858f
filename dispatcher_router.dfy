// The router of the oldest generation (src/dispatcher/router.rs). Its
// routers have one telegram observer per routed update type (there is no
// `update` observer). Inner middlewares are handed down when a router is
// included, to the included router and to everything below it; an event goes
// through the outer middlewares of its type's observer, then the observer,
// then the sub-routers.
module DispatcherRouter {
  import opened Wrappers
  import opened Events
  import opened UpdateTypes
  import opened RouterCommon
  import DH = DispatcherHandler
  import opened DispatcherInnerMiddleware
  import DO = DispatcherObserver
  import Simple = SimpleObserver

  /** A telegram observer being built: handlers, its own filters (the
      common handler), inner middlewares and outer middlewares. */
  datatype ObserverBuilder<!R, M> = ObserverBuilder(
    eventName: string,
    handlers: seq<DH.HandlerObjectService<R>>,
    common: DH.HandlerObjectService<R>,
    middlewares: seq<M>,
    outer: seq<OuterMiddleware<R, AppErrorKind>>)

  /** A router as a value: the form an included router takes. */
  datatype RouterValue<!R, M, !S, E> = RouterValue(
    name: string,
    subRouters: seq<RouterValue<R, M, S, E>>,
    observers: UpdateType -> ObserverBuilder<R, M>,
    startup: Simple.Service<S, E>,
    shutdown: Simple.Service<S, E>)

  /** A built observer: its outer middlewares and the observer service. */
  datatype ObserverService<!R, M> = ObserverService(outer: seq<OuterMiddleware<R, AppErrorKind>>, observer: DO.ObserverService<R, M>)

  datatype RouterService<!R, M, !S, E> = RouterService(
    name: string,
    subRouters: seq<RouterService<R, M, S, E>>,
    observers: UpdateType -> ObserverService<R, M>,
    startup: Simple.Service<S, E>,
    shutdown: Simple.Service<S, E>)

  // ---------------------------------------------------------------------
  // Including routers

  /** The observers with `front` placed ahead of each one's inner
      middlewares. */
  function PrependObservers<R, M>(observers: UpdateType -> ObserverBuilder<R, M>, front: UpdateType -> seq<M>): (o: UpdateType -> ObserverBuilder<R, M>)
    ensures forall t :: o(t) == observers(t).(middlewares := front(t) + observers(t).middlewares)
  {
    (t: UpdateType) => observers(t).(middlewares := front(t) + observers(t).middlewares)
  }

  /** What `register_inner_middlewares_in_sub_router` makes of a router:
      `front` ahead of the inner middlewares of each of its observers, and
      the same in every router below it. */
  function WithInherited<R, M, S, E>(r: RouterValue<R, M, S, E>, front: UpdateType -> seq<M>): (u: RouterValue<R, M, S, E>)
    ensures u.name == r.name && |u.subRouters| == |r.subRouters|
    ensures u.startup == r.startup && u.shutdown == r.shutdown
    decreases r
  {
    RouterValue(
      r.name,
      seq(|r.subRouters|, i requires 0 <= i < |r.subRouters| => WithInherited(r.subRouters[i], front)),
      PrependObservers(r.observers, front),
      r.startup,
      r.shutdown)
  }

  /** `register_inner_middlewares_in_sub_router`: the router's observers,
      then each of its sub-routers in turn. */
  method RegisterInSubRouter<R, M, S, E>(front: UpdateType -> seq<M>, r: RouterValue<R, M, S, E>) returns (u: RouterValue<R, M, S, E>)
    ensures u == WithInherited(r, front)
    decreases r
  {
    var subRouters: seq<RouterValue<R, M, S, E>> := [];
    for i := 0 to |r.subRouters|
      invariant |subRouters| == i
      invariant forall k | 0 <= k < i :: subRouters[k] == WithInherited(r.subRouters[k], front)
    {
      var sub := RegisterInSubRouter(front, r.subRouters[i]);
      subRouters := subRouters + [sub];
    }
    u := RouterValue(r.name, subRouters, PrependObservers(r.observers, front), r.startup, r.shutdown);
  }

  /** The inner middlewares of each of a router's observers. */
  function InnerOf<R, M>(observers: UpdateType -> ObserverBuilder<R, M>): (f: UpdateType -> seq<M>)
    ensures forall t :: f(t) == observers(t).middlewares
  {
    (t: UpdateType) => observers(t).middlewares
  }

  /** A path of sub-router positions leading from `r` into the tree. */
  predicate IsPath<R, M, S, E>(r: RouterValue<R, M, S, E>, path: seq<nat>)
    decreases |path|
  {
    |path| == 0 || (path[0] < |r.subRouters| && IsPath(r.subRouters[path[0]], path[1..]))
  }

  function Descend<R, M, S, E>(r: RouterValue<R, M, S, E>, path: seq<nat>): RouterValue<R, M, S, E>
    requires IsPath(r, path)
    decreases |path|
  {
    if |path| == 0 then r else Descend(r.subRouters[path[0]], path[1..])
  }

  /** Inheriting reaches every router below the included one, with the same
      middlewares in front; handlers, filters and outer middlewares stay. */
  lemma {:induction false} InheritedEverywhere<R, M, S, E>(r: RouterValue<R, M, S, E>, front: UpdateType -> seq<M>, path: seq<nat>, t: UpdateType)
    requires IsPath(r, path)
    ensures IsPath(WithInherited(r, front), path)
    ensures Descend(WithInherited(r, front), path).observers(t)
         == Descend(r, path).observers(t).(middlewares := front(t) + Descend(r, path).observers(t).middlewares)
    decreases |path|
  {
    if |path| > 0 {
      InheritedEverywhere(r.subRouters[path[0]], front, path[1..], t);
    }
  }

  /** `Router`: `new` starts it empty; observers receive middlewares, and
      `include_router` appends routers. */
  class Router<R, M, S, E> {
    const name: string
    var subRouters: seq<RouterValue<R, M, S, E>>
    var observers: UpdateType -> ObserverBuilder<R, M>
    var startup: Simple.Service<S, E>
    var shutdown: Simple.Service<S, E>

    /** `new`: no sub-routers and empty observers named after their update
        types; the observers' common handler is a parameter. */
    constructor (name: string, common: DH.HandlerObjectService<R>)
      ensures this.name == name && subRouters == []
      ensures forall t :: observers(t) == ObserverBuilder(Name(t), [], common, [], [])
      ensures startup == Simple.Service("startup", []) && shutdown == Simple.Service("shutdown", [])
    {
      this.name := name;
      subRouters := [];
      observers := (t: UpdateType) => ObserverBuilder(Name(t), [], common, [], []);
      startup := Simple.Service("startup", []);
      shutdown := Simple.Service("shutdown", []);
    }

    function ToValue(): (v: RouterValue<R, M, S, E>)
      reads this
      ensures v.name == name && v.subRouters == subRouters && v.observers == observers
      ensures v.startup == startup && v.shutdown == shutdown
    {
      RouterValue(name, subRouters, observers, startup, shutdown)
    }

    /** `<observer>.middlewares.register(m)`: one more inner middleware on
        the observer of `t`, after the others. Routers already included
        keep what they were given. */
    method RegisterMiddleware(t: UpdateType, m: M)
      modifies this
      ensures forall u :: observers(u) == if u == t then old(observers(u)).(middlewares := old(observers(u)).middlewares + [m]) else old(observers(u))
      ensures subRouters == old(subRouters) && startup == old(startup) && shutdown == old(shutdown)
    {
      var before := observers;
      observers := (u: UpdateType) => if u == t then before(u).(middlewares := before(u).middlewares + [m]) else before(u);
    }

    /** `include_router`: this router's current inner middlewares go ahead
        of those of the included router and of every router below it; then
        it is appended. */
    method IncludeRouter(router: RouterValue<R, M, S, E>)
      modifies this
      ensures subRouters == old(subRouters) + [WithInherited(router, InnerOf(old(observers)))]
      ensures observers == old(observers) && startup == old(startup) && shutdown == old(shutdown)
    {
      var inherited := RegisterInSubRouter(InnerOf(observers), router);
      subRouters := subRouters + [inherited];
    }

    /** `resolve_used_update_types`. */
    method ResolveUsedUpdateTypes(skip: set<string>) returns (used: set<string>)
      ensures used == UsedNames(ToValue(), skip)
    {
      used := Resolve(ToValue(), skip);
    }
  }

  /** Middlewares registered after an inclusion do not reach the included
      router. */
  method IncludeThenRegister<R, M, S, E>(parent: Router<R, M, S, E>, sub: RouterValue<R, M, S, E>, t: UpdateType, m: M)
    modifies parent
    ensures parent.subRouters == old(parent.subRouters) + [WithInherited(sub, InnerOf(old(parent.observers)))]
    ensures parent.observers(t).middlewares == old(parent.observers(t)).middlewares + [m]
  {
    parent.IncludeRouter(sub);
    parent.RegisterMiddleware(t, m);
  }

  // ---------------------------------------------------------------------
  // Resolving the used update types

  /** The names of this router's first `k` observers that have handlers and
      are not skipped. */
  function OwnNamesUpTo<R, M, S, E>(r: RouterValue<R, M, S, E>, skip: set<string>, k: nat): set<string>
    requires k <= 14
  {
    if k == 0 then {}
    else
      var o := r.observers(RoutedTypes()[k - 1]);
      OwnNamesUpTo(r, skip, k - 1) + (if |o.handlers| > 0 && o.eventName !in skip then {o.eventName} else {})
  }

  /** The union over the tree. */
  function UsedNames<R, M, S, E>(r: RouterValue<R, M, S, E>, skip: set<string>): set<string>
    decreases r, 1
  {
    SubNames(r.subRouters, skip, 0) + OwnNamesUpTo(r, skip, 14)
  }

  function SubNames<R, M, S, E>(subs: seq<RouterValue<R, M, S, E>>, skip: set<string>, i: nat): set<string>
    requires i <= |subs|
    decreases subs, 0, |subs| - i
  {
    if i == |subs| then {} else UsedNames(subs[i], skip) + SubNames(subs, skip, i + 1)
  }

  /** `resolve_used_update_types`: the sub-routers' names first, then the
      names of this router's observers that have handlers and are not
      skipped. */
  method Resolve<R, M, S, E>(r: RouterValue<R, M, S, E>, skip: set<string>) returns (used: set<string>)
    ensures used == UsedNames(r, skip)
    decreases r
  {
    used := {};
    for i := 0 to |r.subRouters|
      invariant SubNames(r.subRouters, skip, 0) == used + SubNames(r.subRouters, skip, i)
    {
      var sub := Resolve(r.subRouters[i], skip);
      used := used + sub;
    }
    var own: set<string> := {};
    var types := RoutedTypes();
    for k := 0 to 14
      invariant own == OwnNamesUpTo(r, skip, k)
    {
      var observer := r.observers(types[k]);
      if |observer.handlers| > 0 && observer.eventName !in skip {
        own := own + {observer.eventName};
      }
    }
    used := used + own;
  }

  /** Skipping is resolving everything and removing the skipped names. */
  lemma {:induction false} SkipRemoves<R, M, S, E>(r: RouterValue<R, M, S, E>, skip: set<string>)
    ensures UsedNames(r, skip) == UsedNames(r, {}) - skip
    decreases r, 1
  {
    OwnSkipRemoves(r, skip, 14);
    SubSkipRemoves(r.subRouters, skip, 0);
  }

  lemma {:induction false} OwnSkipRemoves<R, M, S, E>(r: RouterValue<R, M, S, E>, skip: set<string>, k: nat)
    requires k <= 14
    ensures OwnNamesUpTo(r, skip, k) == OwnNamesUpTo(r, {}, k) - skip
  {
    if k > 0 {
      OwnSkipRemoves(r, skip, k - 1);
    }
  }

  lemma {:induction false} SubSkipRemoves<R, M, S, E>(subs: seq<RouterValue<R, M, S, E>>, skip: set<string>, i: nat)
    requires i <= |subs|
    ensures SubNames(subs, skip, i) == SubNames(subs, {}, i) - skip
    decreases subs, 0, |subs| - i
  {
    if i < |subs| {
      SkipRemoves(subs[i], skip);
      SubSkipRemoves(subs, skip, i + 1);
    }
  }

  /** Inheriting middlewares does not change which names are used. */
  lemma {:induction false} InheritingKeepsNames<R, M, S, E>(r: RouterValue<R, M, S, E>, front: UpdateType -> seq<M>, skip: set<string>)
    ensures UsedNames(WithInherited(r, front), skip) == UsedNames(r, skip)
    decreases r, 1
  {
    OwnInheritingKeepsNames(r, front, skip, 14);
    SubInheritingKeepsNames(r.subRouters, WithInherited(r, front).subRouters, front, skip, 0);
  }

  lemma {:induction false} OwnInheritingKeepsNames<R, M, S, E>(r: RouterValue<R, M, S, E>, front: UpdateType -> seq<M>, skip: set<string>, k: nat)
    requires k <= 14
    ensures OwnNamesUpTo(WithInherited(r, front), skip, k) == OwnNamesUpTo(r, skip, k)
  {
    if k > 0 {
      OwnInheritingKeepsNames(r, front, skip, k - 1);
    }
  }

  lemma {:induction false} SubInheritingKeepsNames<R, M, S, E>(subs: seq<RouterValue<R, M, S, E>>, inherited: seq<RouterValue<R, M, S, E>>, front: UpdateType -> seq<M>, skip: set<string>, i: nat)
    requires i <= |subs| == |inherited|
    requires forall k | 0 <= k < |subs| :: inherited[k] == WithInherited(subs[k], front)
    ensures SubNames(inherited, skip, i) == SubNames(subs, skip, i)
    decreases subs, 0, |subs| - i
  {
    if i < |subs| {
      InheritingKeepsNames(subs[i], front, skip);
      SubInheritingKeepsNames(subs, inherited, front, skip, i + 1);
    }
  }

  // ---------------------------------------------------------------------
  // Building and propagating

  /** `new_service`: every observer built with its middlewares as they
      are, and the sub-routers built in turn. */
  function NewService<R, M, S, E>(r: RouterValue<R, M, S, E>): (svc: RouterService<R, M, S, E>)
    ensures svc.name == r.name && |svc.subRouters| == |r.subRouters|
    ensures forall t :: svc.observers(t).outer == r.observers(t).outer
    ensures forall t :: svc.observers(t).observer
                      == DO.ObserverService(r.observers(t).eventName, r.observers(t).handlers, r.observers(t).common, r.observers(t).middlewares)
    decreases r
  {
    RouterService(
      r.name,
      seq(|r.subRouters|, i requires 0 <= i < |r.subRouters| => NewService(r.subRouters[i])),
      (t: UpdateType) => ObserverService(r.observers(t).outer, DO.ObserverService(r.observers(t).eventName, r.observers(t).handlers, r.observers(t).common, r.observers(t).middlewares)),
      r.startup,
      r.shutdown)
  }

  /** `telegram_observer_by_update_type`. */
  function ObserverByUpdateType<R, M, S, E>(svc: RouterService<R, M, S, E>, t: UpdateType): ObserverService<R, M>
    requires t in RoutedTypes()
  {
    svc.observers(t)
  }

  /** `propagate_event` as written: with no outer middlewares the request
      goes straight to the observer; otherwise skip ignores a middleware,
      cancel rejects the event, and anything else adopts its request. */
  function PropagateAsWritten<R, M, S, E>(run: Run<R, M>, svc: RouterService<R, M, S, E>, t: UpdateType, req: R): (res: Result<DO.Response<R>, AppErrorKind>)
    requires t in RoutedTypes()
    ensures res.Ok? && res.value.response.Rejected? ==> |ObserverByUpdateType(svc, t).outer| > 0
    decreases svc, 1
  {
    var o := ObserverByUpdateType(svc, t);
    if |o.outer| == 0 then ByObserverAsWritten(run, svc, t, req)
    else
      match OuterFrom(o.outer, req, 0)
      case Err(e) => Err(e)
      case Ok(Cancelled(r)) => Ok(DO.Response(r, DO.Rejected))
      case Ok(Proceed(r)) => ByObserverAsWritten(run, svc, t, r)
  }

  /** `propagate_event_by_observer` as written: Rejected is reported as
      Unhandled and Handled is returned; on Unhandled every sub-router is
      called, but the value of the loop's other arm is dropped, so only a
      sub-router's error can change the result, which is otherwise
      Unhandled. */
  function ByObserverAsWritten<R, M, S, E>(run: Run<R, M>, svc: RouterService<R, M, S, E>, t: UpdateType, r: R): (res: Result<DO.Response<R>, AppErrorKind>)
    requires t in RoutedTypes()
    ensures res.Ok? ==> res.value.request == r && !res.value.response.Rejected?
    ensures res.Ok? && res.value.response.Handled? ==> DO.Outcome(run, ObserverByUpdateType(svc, t).observer, r) == res
    decreases svc, 0
  {
    match DO.Outcome(run, ObserverByUpdateType(svc, t).observer, r)
    case Err(e) => Err(e)
    case Ok(resp) =>
      if resp.response.Rejected? then Ok(DO.Response(r, DO.Unhandled))
      else if resp.response.Handled? then Ok(DO.Response(r, resp.response))
      else SubRoutersAsWritten(run, svc.subRouters, t, r, 0)
  }

  /** As written, a sub-router that handles the event is not heard: the
      router still answers Unhandled, the sub-routers after it are still
      called, and only a sub-router's error comes through. */
  function SubRoutersAsWritten<R, M, S, E>(run: Run<R, M>, subs: seq<RouterService<R, M, S, E>>, t: UpdateType, req: R, i: nat): (res: Result<DO.Response<R>, AppErrorKind>)
    requires t in RoutedTypes() && i <= |subs|
    ensures res.Ok? ==> res == Ok(DO.Response(req, DO.Unhandled))
    ensures res.Err? ==> exists k | i <= k < |subs| :: PropagateAsWritten(run, subs[k], t, req) == Err(res.error)
    decreases subs, 0, |subs| - i
  {
    if i == |subs| then Ok(DO.Response(req, DO.Unhandled))
    else
      var res := PropagateAsWritten(run, subs[i], t, req);
      if res.Err? then Err(res.error) else SubRoutersAsWritten(run, subs, t, req, i + 1)
  }

  /** A router whose own observer leaves the event unhandled and whose one
      sub-router handles it: as written the router answers Unhandled, as
      intended it answers with the sub-router's response. */
  lemma {:induction false} DroppedSubRouterResponse<R, M, S, E>(run: Run<R, M>, parent: RouterService<R, M, S, E>, t: UpdateType, req: R)
    requires t in RoutedTypes() && |parent.observers(t).outer| == 0 && |parent.subRouters| == 1
    requires DO.Outcome(run, parent.observers(t).observer, req) == Ok(DO.Response(req, DO.Unhandled))
    requires |parent.subRouters[0].subRouters| == 0
    requires Propagate(run, parent.subRouters[0], t, req).Ok? && Propagate(run, parent.subRouters[0], t, req).value.response.Handled?
    ensures PropagateAsWritten(run, parent, t, req) == Ok(DO.Response(req, DO.Unhandled))
    ensures Propagate(run, parent, t, req) == Propagate(run, parent.subRouters[0], t, req)
  {
    AgreeWithoutSubRouters(run, parent.subRouters[0], t, req);
    assert SubRoutersAsWritten(run, parent.subRouters, t, req, 1) == Ok(DO.Response(req, DO.Unhandled));
    assert SubRoutersAsWritten(run, parent.subRouters, t, req, 0) == Ok(DO.Response(req, DO.Unhandled));
    assert ByObserverAsWritten(run, parent, t, req) == SubRoutersAsWritten(run, parent.subRouters, t, req, 0);
    assert SubRoutersFrom(run, parent.subRouters, t, req, 0) == Propagate(run, parent.subRouters[0], t, req);
  }

  /** A handler that finishes every event, with no filters. */
  function FinishingHandler(): (h: DH.HandlerObjectService<int>)
    ensures h.filters == [] && forall r: int :: h.service(r) == Ok(DH.Response(r, Finish))
  {
    DH.HandlerObjectService((r: int) => Ok(DH.Response(r, Finish)), [])
  }

  /** A router with the given message handlers and sub-routers, no
      middlewares and no startup or shutdown handlers. */
  function ExampleRouter(name: string, handlers: seq<DH.HandlerObjectService<int>>, subRouters: seq<RouterService<int, int, (), ()>>): (svc: RouterService<int, int, (), ()>)
    ensures svc.subRouters == subRouters
    ensures forall t :: svc.observers(t) == ObserverService([], DO.ObserverService(Name(t), handlers, DH.HandlerObjectService((r: int) => Err(DH.ServiceError("")), []), []))
  {
    RouterService(name, subRouters,
      (t: UpdateType) => ObserverService([], DO.ObserverService(Name(t), handlers, DH.HandlerObjectService((r: int) => Err(DH.ServiceError("")), []), [])),
      Simple.Service("startup", []), Simple.Service("shutdown", []))
  }

  /** A message sent to a router with no handlers of its own, which includes
      a router whose one handler finishes it: as written the event comes
      back Unhandled, as intended Handled. */
  lemma DroppedSubRouterExample(run: Run<int, int>)
    ensures var main := ExampleRouter("main", [], [ExampleRouter("sub", [FinishingHandler()], [])]);
      PropagateAsWritten(run, main, MessageType, 0) == Ok(DO.Response(0, DO.Unhandled))
      && Propagate(run, main, MessageType, 0) == Ok(DO.Response(0, DO.Handled(DH.Response(0, Finish))))
  {
    var sub := ExampleRouter("sub", [FinishingHandler()], []);
    var main := ExampleRouter("main", [], [sub]);
    assert DO.OutcomeFrom(run, [FinishingHandler()], [], 0, 0) == Ok(DO.Response(0, DO.Handled(DH.Response(0, Finish))));
    assert Propagate(run, sub, MessageType, 0) == Ok(DO.Response(0, DO.Handled(DH.Response(0, Finish))));
    DroppedSubRouterResponse(run, main, MessageType, 0);
  }

  /** `propagate_event` as intended: the same, except that the first
      sub-router that does not leave the event unhandled gives the
      result. */
  function Propagate<R, M, S, E>(run: Run<R, M>, svc: RouterService<R, M, S, E>, t: UpdateType, req: R): (res: Result<DO.Response<R>, AppErrorKind>)
    requires t in RoutedTypes()
    ensures res.Ok? && res.value.response.Rejected? ==> |ObserverByUpdateType(svc, t).outer| > 0 || |svc.subRouters| > 0
    decreases svc, 1
  {
    var o := ObserverByUpdateType(svc, t);
    if |o.outer| == 0 then ByObserver(run, svc, t, req)
    else
      match OuterFrom(o.outer, req, 0)
      case Err(e) => Err(e)
      case Ok(Cancelled(r)) => Ok(DO.Response(r, DO.Rejected))
      case Ok(Proceed(r)) => ByObserver(run, svc, t, r)
  }

  /** The type's observer with the request the outer middlewares passed
      on: Handled is returned, Rejected is reported as Unhandled, and
      Unhandled passes the event to the sub-routers. */
  function ByObserver<R, M, S, E>(run: Run<R, M>, svc: RouterService<R, M, S, E>, t: UpdateType, r: R): (res: Result<DO.Response<R>, AppErrorKind>)
    requires t in RoutedTypes()
    ensures res.Ok? && res.value.response.Rejected? ==> |svc.subRouters| > 0
    decreases svc, 0
  {
    match DO.Outcome(run, ObserverByUpdateType(svc, t).observer, r)
    case Err(e) => Err(e)
    case Ok(resp) =>
      if resp.response.Rejected? then Ok(DO.Response(r, DO.Unhandled))
      else if resp.response.Handled? then Ok(DO.Response(r, resp.response))
      else SubRoutersFrom(run, svc.subRouters, t, r, 0)
  }

  /** The sub-routers from position `i`: an Unhandled one passes the event
      on; the first other response, or the first error, is the result. */
  function SubRoutersFrom<R, M, S, E>(run: Run<R, M>, subs: seq<RouterService<R, M, S, E>>, t: UpdateType, req: R, i: nat): (res: Result<DO.Response<R>, AppErrorKind>)
    requires t in RoutedTypes() && i <= |subs|
    ensures res.Ok? && res.value.response.Unhandled? ==>
      res.value.request == req
      && forall k | i <= k < |subs| :: Propagate(run, subs[k], t, req).Ok? && Propagate(run, subs[k], t, req).value.response.Unhandled?
    decreases subs, 0, |subs| - i
  {
    if i == |subs| then Ok(DO.Response(req, DO.Unhandled))
    else
      var res := Propagate(run, subs[i], t, req);
      if res.Err? then res
      else if res.value.response.Unhandled? then SubRoutersFrom(run, subs, t, req, i + 1)
      else res
  }

  /** The two agree whenever no sub-router is reached with a result other
      than Unhandled. */
  lemma {:induction false} AgreeWithoutSubRouters<R, M, S, E>(run: Run<R, M>, svc: RouterService<R, M, S, E>, t: UpdateType, req: R)
    requires t in RoutedTypes() && |svc.subRouters| == 0
    ensures PropagateAsWritten(run, svc, t, req) == Propagate(run, svc, t, req)
  {
    var o := ObserverByUpdateType(svc, t);
    if |o.outer| > 0 {
      match OuterFrom(o.outer, req, 0)
      case Err(e) =>
      case Ok(Cancelled(r)) =>
      case Ok(Proceed(r)) =>
        ByObserverAgreeWithoutSubRouters(run, svc, t, r);
    } else {
      ByObserverAgreeWithoutSubRouters(run, svc, t, req);
    }
  }

  lemma ByObserverAgreeWithoutSubRouters<R, M, S, E>(run: Run<R, M>, svc: RouterService<R, M, S, E>, t: UpdateType, r: R)
    requires t in RoutedTypes() && |svc.subRouters| == 0
    ensures ByObserverAsWritten(run, svc, t, r) == ByObserver(run, svc, t, r)
  {
    assert SubRoutersAsWritten(run, svc.subRouters, t, r, 0) == SubRoutersFrom(run, svc.subRouters, t, r, 0);
  }

  /** The cases of `propagate_event`: an outer middleware's error is
      returned, a cancel rejects the event before the observer runs, a
      handled event is returned and a rejected one reported as unhandled
      without the sub-routers; an unhandled one goes to the sub-routers. */
  lemma PropagateCases<R, M, S, E>(run: Run<R, M>, svc: RouterService<R, M, S, E>, t: UpdateType, req: R)
    requires t in RoutedTypes()
    ensures var o := ObserverByUpdateType(svc, t);
      var outer := OuterFrom(o.outer, req, 0);
      (outer.Err? ==> Propagate(run, svc, t, req) == Err(outer.error))
      && (outer.Ok? && outer.value.Cancelled? ==> Propagate(run, svc, t, req) == Ok(DO.Response(outer.value.request, DO.Rejected)))
      && (outer.Ok? && outer.value.Proceed? ==>
            var r := outer.value.request;
            var c := DO.Outcome(run, o.observer, r);
            (c.Err? ==> Propagate(run, svc, t, req) == Err(c.error))
            && (c.Ok? && c.value.response.Handled? ==> Propagate(run, svc, t, req) == Ok(DO.Response(r, c.value.response)))
            && (c.Ok? && c.value.response.Rejected? ==> Propagate(run, svc, t, req) == Ok(DO.Response(r, DO.Unhandled)))
            && (c.Ok? && c.value.response.Unhandled? ==> Propagate(run, svc, t, req) == SubRoutersFrom(run, svc.subRouters, t, r, 0)))
  {
    var o := ObserverByUpdateType(svc, t);
    if |o.outer| == 0 {
      assert OuterFrom(o.outer, req, 0) == Ok(Proceed(req));
    }
  }

  /** A sub-router that leaves the event unhandled passes it on. */
  lemma SubRoutersStep<R, M, S, E>(run: Run<R, M>, subs: seq<RouterService<R, M, S, E>>, t: UpdateType, req: R, i: nat)
    requires t in RoutedTypes() && i < |subs|
    requires Propagate(run, subs[i], t, req).Ok? && Propagate(run, subs[i], t, req).value.response.Unhandled?
    ensures SubRoutersFrom(run, subs, t, req, i) == SubRoutersFrom(run, subs, t, req, i + 1)
  {
  }

  /** A sub-router that does not leave the event unhandled decides. */
  lemma SubRoutersDecides<R, M, S, E>(run: Run<R, M>, subs: seq<RouterService<R, M, S, E>>, t: UpdateType, req: R, i: nat)
    requires t in RoutedTypes() && i < |subs|
    requires !(Propagate(run, subs[i], t, req).Ok? && Propagate(run, subs[i], t, req).value.response.Unhandled?)
    ensures SubRoutersFrom(run, subs, t, req, i) == Propagate(run, subs[i], t, req)
  {
  }

  /** Sub-routers that leave the event unhandled pass it on; the first
      that does not decides. */
  lemma SubRoutersPassOver<R, M, S, E>(run: Run<R, M>, subs: seq<RouterService<R, M, S, E>>, t: UpdateType, req: R, i: nat, j: nat)
    requires t in RoutedTypes() && i <= j <= |subs|
    requires forall k | i <= k < j :: Propagate(run, subs[k], t, req).Ok? && Propagate(run, subs[k], t, req).value.response.Unhandled?
    ensures SubRoutersFrom(run, subs, t, req, i) == SubRoutersFrom(run, subs, t, req, j)
    ensures j < |subs| && !(Propagate(run, subs[j], t, req).Ok? && Propagate(run, subs[j], t, req).value.response.Unhandled?) ==>
      SubRoutersFrom(run, subs, t, req, i) == Propagate(run, subs[j], t, req)
  {
    forall k | i <= k < j
      ensures SubRoutersFrom(run, subs, t, req, k) == SubRoutersFrom(run, subs, t, req, k + 1)
    {
      SubRoutersStep(run, subs, t, req, k);
    }
    SubRoutersChain(run, subs, t, req, i, j);
    if j < |subs| && !(Propagate(run, subs[j], t, req).Ok? && Propagate(run, subs[j], t, req).value.response.Unhandled?) {
      SubRoutersDecides(run, subs, t, req, j);
    }
  }

  /** Positions that each pass the event on to the next give one result. */
  lemma {:induction false} SubRoutersChain<R, M, S, E>(run: Run<R, M>, subs: seq<RouterService<R, M, S, E>>, t: UpdateType, req: R, i: nat, j: nat)
    requires t in RoutedTypes() && i <= j <= |subs|
    requires forall k | i <= k < j :: SubRoutersFrom(run, subs, t, req, k) == SubRoutersFrom(run, subs, t, req, k + 1)
    ensures SubRoutersFrom(run, subs, t, req, i) == SubRoutersFrom(run, subs, t, req, j)
    decreases j - i
  {
    if i < j {
      SubRoutersChain(run, subs, t, req, i + 1, j);
    }
  }

  /** `propagate_event`, with the sub-router loop returning the first
      response that is not Unhandled. */
  method PropagateEvent<R, M, S, E>(run: Run<R, M>, svc: RouterService<R, M, S, E>, t: UpdateType, req: R) returns (r: Result<DO.Response<R>, AppErrorKind>)
    requires t in RoutedTypes()
    ensures r == Propagate(run, svc, t, req)
    decreases svc, 1
  {
    var observer := ObserverByUpdateType(svc, t);
    if |observer.outer| == 0 {
      r := PropagateEventByObserver(run, svc, t, req);
      return;
    }
    var outer := RunOuterMiddlewares(observer.outer, req);
    if outer.Err? {
      return Err(outer.error);
    }
    if outer.value.Cancelled? {
      return Ok(DO.Response(outer.value.request, DO.Rejected));
    }
    r := PropagateEventByObserver(run, svc, t, outer.value.request);
  }

  /** `propagate_event_by_observer`. */
  method PropagateEventByObserver<R, M, S, E>(run: Run<R, M>, svc: RouterService<R, M, S, E>, t: UpdateType, req: R) returns (r: Result<DO.Response<R>, AppErrorKind>)
    requires t in RoutedTypes()
    ensures r == ByObserver(run, svc, t, req)
    decreases svc, 0
  {
    var observerResponse := DO.Trigger(run, ObserverByUpdateType(svc, t).observer, req);
    if observerResponse.Err? {
      return Err(observerResponse.error);
    }
    match observerResponse.value.response {
      case Rejected =>
        return Ok(DO.Response(req, DO.Unhandled));
      case Unhandled =>
      case Handled(res) =>
        return Ok(DO.Response(req, DO.Handled(res)));
    }
    r := PropagateToSubRouters(run, svc.subRouters, t, req);
  }

  method PropagateToSubRouters<R, M, S, E>(run: Run<R, M>, subs: seq<RouterService<R, M, S, E>>, t: UpdateType, req: R) returns (r: Result<DO.Response<R>, AppErrorKind>)
    requires t in RoutedTypes()
    ensures r == SubRoutersFrom(run, subs, t, req, 0)
    decreases subs, 1
  {
    for i := 0 to |subs|
      invariant SubRoutersFrom(run, subs, t, req, 0) == SubRoutersFrom(run, subs, t, req, i)
    {
      var res := PropagateEvent(run, subs[i], t, req);
      if res.Err? {
        return Err(res.error);
      }
      if res.value.response.Unhandled? {
        continue;
      }
      return res;
    }
    return Ok(DO.Response(req, DO.Unhandled));
  }

  // ---------------------------------------------------------------------
  // Startup and shutdown

  /** The observers `emit_startup` calls: the router's own, then its direct
      sub-routers'. */
  function StartupObservers<R, M, S, E>(svc: RouterService<R, M, S, E>): (obs: seq<Simple.Service<S, E>>)
    ensures |obs| == |svc.subRouters| + 1 && obs[0] == svc.startup
    ensures forall i | 0 <= i < |svc.subRouters| :: obs[i + 1] == svc.subRouters[i].startup
  {
    [svc.startup] + seq(|svc.subRouters|, i requires 0 <= i < |svc.subRouters| => svc.subRouters[i].startup)
  }

  function ShutdownObservers<R, M, S, E>(svc: RouterService<R, M, S, E>): (obs: seq<Simple.Service<S, E>>)
    ensures |obs| == |svc.subRouters| + 1 && obs[0] == svc.shutdown
    ensures forall i | 0 <= i < |svc.subRouters| :: obs[i + 1] == svc.subRouters[i].shutdown
  {
    [svc.shutdown] + seq(|svc.subRouters|, i requires 0 <= i < |svc.subRouters| => svc.subRouters[i].shutdown)
  }

  /** `emit_startup`. */
  method EmitStartup<R, M, S, E>(svc: RouterService<R, M, S, E>, world: S) returns (after: S, r: Result<(), E>)
    ensures Simple.Step(after, r) == Simple.TriggerEach(StartupObservers(svc), world)
  {
    after, r := Simple.EmitEach(StartupObservers(svc), world);
  }

  /** `emit_shutdown`. */
  method EmitShutdown<R, M, S, E>(svc: RouterService<R, M, S, E>, world: S) returns (after: S, r: Result<(), E>)
    ensures Simple.Step(after, r) == Simple.TriggerEach(ShutdownObservers(svc), world)
  {
    after, r := Simple.EmitEach(ShutdownObservers(svc), world);
  }
}
