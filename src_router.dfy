// The router of the middle generation (src/router.rs): a tree of routers,
// each with one telegram observer per routed update type, an `update`
// observer that sees every event, and startup/shutdown observers. Building
// the tree into services hands inner middlewares down the tree; an event is
// propagated through the `update` observer, then the outer middlewares and
// the observer of its type, then the sub-routers in order.

/** What the routers of the two generations share: the observers every
    router has, named as the update types they serve, the insertion of
    inherited middlewares, and the outer-middleware loop. */
module RouterCommon {
  import opened Wrappers
  import opened Events
  import opened UpdateTypes
  import opened TelersInnerMiddleware

  /** A router's telegram observer: the one for an update type, or the
      `update` observer that is called for every event. */
  datatype ObserverName = TypeObserver(updateType: UpdateType) | UpdateObserver

  /** The update types a router has an observer for, in the order of
      `telegram_observers`; the router's update-type enumeration has
      exactly these variants. */
  function RoutedTypes(): (r: seq<UpdateType>)
    ensures |r| == 14
    ensures MessageReactionType !in r && MessageReactionCountType !in r
    ensures ChatBoostType !in r && RemovedChatBoostType !in r
  {
    [MessageType, EditedMessageType, ChannelPostType, EditedChannelPostType,
     InlineQueryType, ChosenInlineResultType, CallbackQueryType, ShippingQueryType,
     PreCheckoutQueryType, PollType, PollAnswerType, MyChatMemberType,
     ChatMemberType, ChatJoinRequestType]
  }

  /** The observers of `telegram_observers`: the routed types, then `update`. */
  function TelegramObservers(): (r: seq<ObserverName>)
    ensures |r| == 15 && r[14] == UpdateObserver
    ensures forall i | 0 <= i < 14 :: r[i] == TypeObserver(RoutedTypes()[i])
  {
    seq(14, i requires 0 <= i < 14 => TypeObserver(RoutedTypes()[i])) + [UpdateObserver]
  }

  /** The observer's event name: the update type's name, or "update". */
  function EventName(n: ObserverName): string {
    match n
    case TypeObserver(t) => Name(t)
    case UpdateObserver => "update"
  }

  /** The event names parse back as update types, except "update". */
  lemma EventNameParses(n: ObserverName)
    ensures n.TypeObserver? ==> FromStr(EventName(n)) == Some(n.updateType)
    ensures n.UpdateObserver? ==> FromStr(EventName(n)) == None
  {
    if n.TypeObserver? {
      NameRoundTrip(n.updateType);
    }
  }

  /** An outer middleware: the request it hands back with its verdict, or
      an error. */
  type OuterMiddleware<!R, Er> = R -> Result<(R, EventReturn), Er>

  /** The `register_at_position` loop: the middlewares of `front` are
      inserted one by one at the next position, so that they end up, in
      order, ahead of those already in `list`. */
  method RegisterAtFront<T>(list: seq<T>, front: seq<T>) returns (r: seq<T>)
    ensures r == front + list
  {
    r := list;
    var index := 0;
    while index < |front|
      invariant 0 <= index <= |front|
      invariant r == front[..index] + list
    {
      assert r[..index] == front[..index] && r[index..] == list;
      r := r[..index] + [front[index]] + r[index..];
      assert front[..index + 1] == front[..index] + [front[index]];
      index := index + 1;
    }
  }

  /** Where the outer middlewares leave an event: passed on with the
      request the observer will see, or cancelled with the request as it
      was before the cancelling middleware. */
  datatype OuterOutcome<R> = Proceed(request: R) | Cancelled(request: R)

  /** The outer-middleware loop from position `i` with the current request:
      Finish adopts the request the middleware hands back, Skip keeps the
      current one, Cancel stops; an error stops the loop. */
  function OuterFrom<R, Er>(mws: seq<OuterMiddleware<R, Er>>, req: R, i: nat): Result<OuterOutcome<R>, Er>
    requires i <= |mws|
    decreases |mws| - i
  {
    if i == |mws| then Ok(Proceed(req))
    else
      var c := mws[i](req);
      if c.Err? then Err(c.error)
      else if c.value.1 == Finish then OuterFrom(mws, c.value.0, i + 1)
      else if c.value.1 == Skip then OuterFrom(mws, req, i + 1)
      else Ok(Cancelled(req))
  }

  /** The outer-middleware loop of `propagate_event` (and of
      `propagate_update_event`). */
  method RunOuterMiddlewares<R, Er>(mws: seq<OuterMiddleware<R, Er>>, req: R) returns (r: Result<OuterOutcome<R>, Er>)
    ensures r == OuterFrom(mws, req, 0)
  {
    var request := req;
    for i := 0 to |mws|
      invariant OuterFrom(mws, req, 0) == OuterFrom(mws, request, i)
    {
      var c := mws[i](request);
      if c.Err? {
        return Err(c.error);
      }
      var (updated, eventReturn) := c.value;
      match eventReturn
      case Finish =>
        request := updated;
      case Skip =>
      case Cancel =>
        return Ok(Cancelled(request));
    }
    return Ok(Proceed(request));
  }

  /** Outer middlewares that all finish hand the observer their rewrites
      of the request, applied first to last. */
  lemma {:induction false} OuterAllFinish<R, Er>(mws: seq<OuterMiddleware<R, Er>>, updates: seq<R -> R>, req: R, i: nat)
    requires i <= |mws| == |updates|
    requires forall k, r: R | 0 <= k < |mws| :: mws[k](r) == Ok((updates[k](r), Finish))
    ensures OuterFrom(mws, req, i) == Ok(Proceed(ApplyInOrder(updates[i..], req)))
    decreases |mws| - i
  {
    if i < |mws| {
      OuterAllFinish(mws, updates, updates[i](req), i + 1);
      assert updates[i..][1..] == updates[i + 1..];
    } else {
      assert updates[i..] == [];
    }
  }

  /** The loop depends only on the middlewares still to run. */
  lemma {:induction false} OuterSameRest<R, Er>(a: seq<OuterMiddleware<R, Er>>, b: seq<OuterMiddleware<R, Er>>, req: R, i: nat, j: nat)
    requires i <= |a| && j <= |b| && a[i..] == b[j..]
    ensures OuterFrom(a, req, i) == OuterFrom(b, req, j)
    decreases |a| - i
  {
    if i < |a| {
      assert a[i] == a[i..][0] == b[j..][0] == b[j];
      assert a[i + 1..] == a[i..][1..] == b[j..][1..] == b[j + 1..];
      var c := a[i](req);
      if c.Ok? {
        OuterSameRest(a, b, c.value.0, i + 1, j + 1);
        OuterSameRest(a, b, req, i + 1, j + 1);
      }
    }
  }

  /** A middleware that always skips might as well not be registered: its
      rewrite of the request is discarded. */
  lemma SkippingMiddlewareIgnored<R, Er>(mws: seq<OuterMiddleware<R, Er>>, k: nat, req: R)
    requires k < |mws|
    requires forall r: R :: mws[k](r).Ok? && mws[k](r).value.1 == Skip
    ensures OuterFrom(mws, req, 0) == OuterFrom(mws[..k] + mws[k + 1..], req, 0)
  {
    SkippingFrom(mws, k, req, 0);
  }

  lemma {:induction false} SkippingFrom<R, Er>(mws: seq<OuterMiddleware<R, Er>>, k: nat, req: R, i: nat)
    requires i <= k < |mws|
    requires forall r: R :: mws[k](r).Ok? && mws[k](r).value.1 == Skip
    ensures OuterFrom(mws, req, i) == OuterFrom(mws[..k] + mws[k + 1..], req, i)
    decreases k - i
  {
    var rest := mws[..k] + mws[k + 1..];
    if i < k {
      assert rest[i] == mws[i];
      var c := mws[i](req);
      if c.Ok? {
        SkippingFrom(mws, k, c.value.0, i + 1);
        SkippingFrom(mws, k, req, i + 1);
      }
    } else {
      assert mws[k](req).Ok? && mws[k](req).value.1 == Skip;
      assert mws[k + 1..] == rest[k..];
      OuterSameRest(mws, rest, req, k + 1, k);
    }
  }

}

module SrcRouter {
  import opened Wrappers
  import opened Events
  import opened UpdateTypes
  import opened RouterCommon
  import TH = TelersHandler
  import opened TelersInnerMiddleware
  import TO = TelersObserver
  import SO = SrcObserver
  import Simple = SimpleObserver

  /** A telegram observer being built: its handlers, its own (common)
      filters, and its inner and outer middlewares. */
  datatype ObserverBuilder<!R> = ObserverBuilder(
    eventName: string,
    handlers: seq<TH.HandlerObjectService<R>>,
    common: TH.HandlerObjectService<R>,
    inner: seq<Middleware<R>>,
    outer: seq<OuterMiddleware<R, EventErrorKind>>)

  /** A router being built, as a value. */
  datatype RouterValue<!R, !S, E> = RouterValue(
    name: string,
    subRouters: seq<RouterValue<R, S, E>>,
    observers: ObserverName -> ObserverBuilder<R>,
    startup: Simple.Service<S, E>,
    shutdown: Simple.Service<S, E>)

  /** A built observer: its outer middlewares and the observer service. */
  datatype ObserverService<!R> = ObserverService(outer: seq<OuterMiddleware<R, EventErrorKind>>, observer: TO.ObserverService<R>)

  /** A built router. */
  datatype RouterService<!R, !S, E> = RouterService(
    name: string,
    subRouters: seq<RouterService<R, S, E>>,
    observers: ObserverName -> ObserverService<R>,
    startup: Simple.Service<S, E>,
    shutdown: Simple.Service<S, E>)

  /** The middlewares the configuration adds to every observer. */
  datatype Config<!R> = Config(outer: ObserverName -> seq<OuterMiddleware<R, EventErrorKind>>, inner: ObserverName -> seq<Middleware<R>>)

  /** An observer with nothing registered. */
  function EmptyObserver<R>(eventName: string, common: TH.HandlerObjectService<R>): (b: ObserverBuilder<R>)
    ensures b.eventName == eventName && b.handlers == [] && b.inner == [] && b.outer == []
  {
    ObserverBuilder(eventName, [], common, [], [])
  }

  /** Every observer of every router in the tree carries its own name. */
  ghost predicate WellNamed<R, S, E>(r: RouterValue<R, S, E>)
    decreases r
  {
    (forall n: ObserverName :: r.observers(n).eventName == EventName(n))
    && forall i | 0 <= i < |r.subRouters| :: WellNamed(r.subRouters[i])
  }

  /** `Router`: the state `new` starts from and `include_router` extends. */
  class Router<R, S, E> {
    const name: string
    var subRouters: seq<RouterValue<R, S, E>>
    var observers: ObserverName -> ObserverBuilder<R>
    var startup: Simple.Service<S, E>
    var shutdown: Simple.Service<S, E>

    /** `new`: no sub-routers, and every observer empty and named after its
        update type. The common handler of an empty observer is a
        parameter. */
    constructor (name: string, common: TH.HandlerObjectService<R>)
      ensures this.name == name && subRouters == []
      ensures forall n: ObserverName :: observers(n) == EmptyObserver(EventName(n), common)
      ensures startup == Simple.Service("startup", []) && shutdown == Simple.Service("shutdown", [])
    {
      this.name := name;
      subRouters := [];
      observers := (n: ObserverName) => EmptyObserver(EventName(n), common);
      startup := Simple.Service("startup", []);
      shutdown := Simple.Service("shutdown", []);
    }

    function ToValue(): (v: RouterValue<R, S, E>)
      reads this
      ensures v.name == name && v.subRouters == subRouters && v.observers == observers
      ensures v.startup == startup && v.shutdown == shutdown
    {
      RouterValue(name, subRouters, observers, startup, shutdown)
    }

    /** `include_router`: the router is appended, unchanged, after the
        sub-routers included before it. */
    method IncludeRouter(router: RouterValue<R, S, E>)
      modifies this
      ensures subRouters == old(subRouters) + [router]
      ensures observers == old(observers) && startup == old(startup) && shutdown == old(shutdown)
    {
      subRouters := subRouters + [router];
    }

    /** `resolve_used_update_types_with_skip` on this router. */
    method ResolveUsedUpdateTypesWithSkip(skip: set<UpdateType>) returns (used: set<UpdateType>)
      requires NamesParse(ToValue())
      ensures used == UsedTypes(ToValue(), skip)
    {
      used := ResolveWithSkip(ToValue(), skip);
    }
  }

  // ---------------------------------------------------------------------
  // Resolving the used update types

  /** An observer's name parses as an update type, unless it has no
      handlers (resolution panics otherwise). */
  predicate ObserverParses<R>(b: ObserverBuilder<R>) {
    |b.handlers| > 0 ==> FromStr(b.eventName).Some?
  }

  /** Resolution does not panic anywhere in the tree. */
  predicate NamesParse<R, S, E>(r: RouterValue<R, S, E>)
    decreases r
  {
    (forall k | 0 <= k < 15 :: ObserverParses(r.observers(TelegramObservers()[k])))
    && forall i | 0 <= i < |r.subRouters| :: NamesParse(r.subRouters[i])
  }

  /** What one observer adds: its type, when it has handlers and the type
      is not skipped. */
  function Contribution<R>(b: ObserverBuilder<R>, skip: set<UpdateType>): (c: set<UpdateType>)
    requires ObserverParses(b)
    ensures forall t :: t in c <==> |b.handlers| > 0 && FromStr(b.eventName) == Some(t) && t !in skip
  {
    if |b.handlers| == 0 then {}
    else
      var t := FromStr(b.eventName).value;
      if t in skip then {} else {t}
  }

  /** The contributions of this router's first `k` observers. */
  function OwnTypesUpTo<R, S, E>(r: RouterValue<R, S, E>, skip: set<UpdateType>, k: nat): set<UpdateType>
    requires k <= 15 && NamesParse(r)
  {
    if k == 0 then {} else OwnTypesUpTo(r, skip, k - 1) + Contribution(r.observers(TelegramObservers()[k - 1]), skip)
  }

  /** The union over the whole tree. */
  function UsedTypes<R, S, E>(r: RouterValue<R, S, E>, skip: set<UpdateType>): set<UpdateType>
    requires NamesParse(r)
    decreases r, 1
  {
    OwnTypesUpTo(r, skip, 15) + SubTypes(r.subRouters, skip, 0)
  }

  function SubTypes<R, S, E>(subs: seq<RouterValue<R, S, E>>, skip: set<UpdateType>, i: nat): set<UpdateType>
    requires i <= |subs|
    requires forall j | 0 <= j < |subs| :: NamesParse(subs[j])
    decreases subs, 0, |subs| - i
  {
    if i == |subs| then {} else UsedTypes(subs[i], skip) + SubTypes(subs, skip, i + 1)
  }

  /** `resolve_used_update_types_with_skip`: own observers first, skipping
      those without handlers and those whose type is skipped; then the
      sub-routers' results are added. */
  method ResolveWithSkip<R, S, E>(r: RouterValue<R, S, E>, skip: set<UpdateType>) returns (used: set<UpdateType>)
    requires NamesParse(r)
    ensures used == UsedTypes(r, skip)
    decreases r
  {
    used := {};
    var observers := TelegramObservers();
    for k := 0 to 15
      invariant used == OwnTypesUpTo(r, skip, k)
    {
      var observer := r.observers(observers[k]);
      assert ObserverParses(observer);
      if |observer.handlers| == 0 {
        continue;
      }
      var updateType := FromStr(observer.eventName).value;
      if updateType in skip {
        continue;
      }
      used := used + {updateType};
    }
    var fromSubs: set<UpdateType> := {};
    for i := 0 to |r.subRouters|
      invariant SubTypes(r.subRouters, skip, 0) == fromSubs + SubTypes(r.subRouters, skip, i)
    {
      var sub := ResolveWithSkip(r.subRouters[i], skip);
      fromSubs := fromSubs + sub;
    }
    used := used + fromSubs;
  }

  /** `resolve_used_update_types`: no type skipped. */
  method ResolveUsedUpdateTypes<R, S, E>(r: RouterValue<R, S, E>) returns (used: set<UpdateType>)
    requires NamesParse(r)
    ensures used == UsedTypes(r, {})
  {
    used := ResolveWithSkip(r, {});
  }

  /** Skipping is the same as resolving everything and removing the skipped
      types. */
  lemma {:induction false} SkipRemoves<R, S, E>(r: RouterValue<R, S, E>, skip: set<UpdateType>)
    requires NamesParse(r)
    ensures UsedTypes(r, skip) == UsedTypes(r, {}) - skip
    decreases r, 1
  {
    OwnSkipRemoves(r, skip, 15);
    SubSkipRemoves(r.subRouters, skip, 0);
  }

  lemma {:induction false} OwnSkipRemoves<R, S, E>(r: RouterValue<R, S, E>, skip: set<UpdateType>, k: nat)
    requires k <= 15 && NamesParse(r)
    ensures OwnTypesUpTo(r, skip, k) == OwnTypesUpTo(r, {}, k) - skip
  {
    if k > 0 {
      OwnSkipRemoves(r, skip, k - 1);
    }
  }

  lemma {:induction false} SubSkipRemoves<R, S, E>(subs: seq<RouterValue<R, S, E>>, skip: set<UpdateType>, i: nat)
    requires i <= |subs|
    requires forall j | 0 <= j < |subs| :: NamesParse(subs[j])
    ensures SubTypes(subs, skip, i) == SubTypes(subs, {}, i) - skip
    decreases subs, 0, |subs| - i
  {
    if i < |subs| {
      SkipRemoves(subs[i], skip);
      SubSkipRemoves(subs, skip, i + 1);
    }
  }

  /** A sub-router's types are among its parent's. */
  lemma SubRouterTypesIncluded<R, S, E>(r: RouterValue<R, S, E>, skip: set<UpdateType>, i: nat)
    requires NamesParse(r) && i < |r.subRouters|
    ensures UsedTypes(r.subRouters[i], skip) <= UsedTypes(r, skip)
  {
    SubTypesIncluded(r.subRouters, skip, 0, i);
  }

  lemma {:induction false} SubTypesIncluded<R, S, E>(subs: seq<RouterValue<R, S, E>>, skip: set<UpdateType>, i: nat, j: nat)
    requires i <= j < |subs|
    requires forall k | 0 <= k < |subs| :: NamesParse(subs[k])
    ensures UsedTypes(subs[j], skip) <= SubTypes(subs, skip, i)
    decreases j - i
  {
    var here, rest := UsedTypes(subs[i], skip), SubTypes(subs, skip, i + 1);
    assert SubTypes(subs, skip, i) == here + rest;
    if i < j {
      SubTypesIncluded(subs, skip, i + 1, j);
    }
  }

  predicate NoUpdateHandlers<R, S, E>(r: RouterValue<R, S, E>)
    decreases r
  {
    |r.observers(UpdateObserver).handlers| == 0
    && forall i | 0 <= i < |r.subRouters| :: NoUpdateHandlers(r.subRouters[i])
  }

  /** For a router whose observers carry their own names, resolution does
      not panic exactly when no `update` observer in the tree has
      handlers. */
  lemma {:induction false} NamesParseIffNoUpdateHandlers<R, S, E>(r: RouterValue<R, S, E>)
    requires WellNamed(r)
    ensures NamesParse(r) <==> NoUpdateHandlers(r)
    decreases r
  {
    forall k | 0 <= k < 15
      ensures ObserverParses(r.observers(TelegramObservers()[k])) <==> (k == 14 ==> |r.observers(UpdateObserver).handlers| == 0)
    {
      var n := TelegramObservers()[k];
      assert r.observers(n).eventName == EventName(n);
      EventNameParses(n);
    }
    forall i | 0 <= i < |r.subRouters|
      ensures NamesParse(r.subRouters[i]) <==> NoUpdateHandlers(r.subRouters[i])
    {
      NamesParseIffNoUpdateHandlers(r.subRouters[i]);
    }
    assert TelegramObservers()[14] == UpdateObserver;
  }

  /** For such a router, its own types are the routed types whose
      observers have handlers, minus the skipped ones. */
  lemma {:induction false} OwnTypesOfWellNamed<R, S, E>(r: RouterValue<R, S, E>, skip: set<UpdateType>, k: nat, t: UpdateType)
    requires WellNamed(r) && NamesParse(r) && k <= 14
    ensures t in OwnTypesUpTo(r, skip, k) <==> t in RoutedTypes()[..k] && |r.observers(TypeObserver(t)).handlers| > 0 && t !in skip
  {
    if k > 0 {
      OwnTypesOfWellNamed(r, skip, k - 1, t);
      ContributionOfWellNamed(r, skip, k - 1, t);
      RoutedPrefixMember(k, t);
    }
  }

  lemma RoutedPrefixMember(k: nat, t: UpdateType)
    requires 0 < k <= 14
    ensures t in RoutedTypes()[..k] <==> t in RoutedTypes()[..k - 1] || t == RoutedTypes()[k - 1]
  {
    var routed := RoutedTypes();
    assert routed[..k] == routed[..k - 1] + [routed[k - 1]];
  }

  lemma ContributionOfWellNamed<R, S, E>(r: RouterValue<R, S, E>, skip: set<UpdateType>, k: nat, t: UpdateType)
    requires WellNamed(r) && NamesParse(r) && k < 14
    ensures t in Contribution(r.observers(TelegramObservers()[k]), skip)
        <==> t == RoutedTypes()[k] && |r.observers(TypeObserver(t)).handlers| > 0 && t !in skip
  {
    var n := TelegramObservers()[k];
    assert r.observers(n).eventName == EventName(n);
    EventNameParses(n);
  }

  // ---------------------------------------------------------------------
  // Building the services: inner middlewares handed down the tree

  /** An observer's service once `outerFront` and `innerFront` are placed
      ahead of its own middlewares. */
  function BuildObserver<R>(b: ObserverBuilder<R>, outerFront: seq<OuterMiddleware<R, EventErrorKind>>, innerFront: seq<Middleware<R>>): (o: ObserverService<R>)
    ensures o.outer == outerFront + b.outer
    ensures o.observer == TO.ObserverService(b.eventName, b.handlers, b.common, innerFront + b.inner)
  {
    ObserverService(outerFront + b.outer, TO.ObserverService(b.eventName, b.handlers, b.common, innerFront + b.inner))
  }

  /** `to_service_provider` of a router whose parent has already placed
      `inherited` ahead of each observer's inner middlewares: the router
      places its resulting lists ahead of its sub-routers' own, then puts
      the configuration's middlewares in front of its own observers, and
      builds its sub-routers with the configuration's outer middlewares
      removed. */
  function ToServiceProvider<R, S, E>(r: RouterValue<R, S, E>, config: Config<R>, inherited: ObserverName -> seq<Middleware<R>>): (svc: RouterService<R, S, E>)
    ensures svc.name == r.name && |svc.subRouters| == |r.subRouters|
    ensures svc.startup == r.startup && svc.shutdown == r.shutdown
    decreases r
  {
    var handedDown := (n: ObserverName) => inherited(n) + r.observers(n).inner;
    var subConfig := config.(outer := (n: ObserverName) => []);
    RouterService(
      r.name,
      seq(|r.subRouters|, i requires 0 <= i < |r.subRouters| => ToServiceProvider(r.subRouters[i], subConfig, handedDown)),
      (n: ObserverName) => BuildObserver(r.observers(n), config.outer(n), config.inner(n) + inherited(n)),
      r.startup,
      r.shutdown)
  }

  /** `to_service_provider` on the root router. */
  function RootService<R, S, E>(r: RouterValue<R, S, E>, config: Config<R>): (svc: RouterService<R, S, E>)
    ensures svc.name == r.name && |svc.subRouters| == |r.subRouters|
  {
    ToServiceProvider(r, config, (n: ObserverName) => [])
  }

  /** A path of sub-router positions leading from `r` into the tree. */
  predicate IsPath<R, S, E>(r: RouterValue<R, S, E>, path: seq<nat>)
    decreases |path|
  {
    |path| == 0 || (path[0] < |r.subRouters| && IsPath(r.subRouters[path[0]], path[1..]))
  }

  function Descend<R, S, E>(r: RouterValue<R, S, E>, path: seq<nat>): RouterValue<R, S, E>
    requires IsPath(r, path)
    decreases |path|
  {
    if |path| == 0 then r else Descend(r.subRouters[path[0]], path[1..])
  }

  /** The built router `path` leads to (a position past the sub-routers
      stops the descent). */
  function DescendService<R, S, E>(svc: RouterService<R, S, E>, path: seq<nat>): RouterService<R, S, E>
    decreases |path|
  {
    if |path| == 0 || path[0] >= |svc.subRouters| then svc else DescendService(svc.subRouters[path[0]], path[1..])
  }

  /** The inner middlewares registered on observer `n` of the routers along
      `path`, from `r` down to the router it leads to. */
  function PathInner<R, S, E>(r: RouterValue<R, S, E>, path: seq<nat>, n: ObserverName): seq<Middleware<R>>
    requires IsPath(r, path)
    decreases |path|
  {
    if |path| == 0 then r.observers(n).inner
    else r.observers(n).inner + PathInner(r.subRouters[path[0]], path[1..], n)
  }

  /** Every router of the built tree gets, at the front of each observer's
      inner middlewares, the configuration's ones once, then those
      registered on its ancestors from the root down, then its own; the
      configuration's outer middlewares reach only the root, and no router
      inherits outer middlewares; handlers and filters are kept. */
  lemma {:induction false} InheritedAlongPath<R, S, E>(r: RouterValue<R, S, E>, config: Config<R>, path: seq<nat>, n: ObserverName)
    requires IsPath(r, path)
    ensures var o := DescendService(RootService(r, config), path).observers(n);
      var b := Descend(r, path).observers(n);
      o.observer.inner == config.inner(n) + PathInner(r, path, n)
      && o.outer == (if |path| == 0 then config.outer(n) else []) + b.outer
      && o.observer.handlers == b.handlers && o.observer.common == b.common && o.observer.eventName == b.eventName
  {
    InheritedFrom(r, config, (m: ObserverName) => [], path, n);
  }

  lemma {:induction false} InheritedFrom<R, S, E>(r: RouterValue<R, S, E>, config: Config<R>, inherited: ObserverName -> seq<Middleware<R>>, path: seq<nat>, n: ObserverName)
    requires IsPath(r, path)
    ensures var o := DescendService(ToServiceProvider(r, config, inherited), path).observers(n);
      var b := Descend(r, path).observers(n);
      o.observer.inner == config.inner(n) + inherited(n) + PathInner(r, path, n)
      && o.outer == (if |path| == 0 then config.outer(n) else []) + b.outer
      && o.observer.handlers == b.handlers && o.observer.common == b.common && o.observer.eventName == b.eventName
    decreases |path|
  {
    if |path| > 0 {
      var handedDown := (m: ObserverName) => inherited(m) + r.observers(m).inner;
      var subConfig := config.(outer := (m: ObserverName) => []);
      var sub := r.subRouters[path[0]];
      assert ToServiceProvider(r, config, inherited).subRouters[path[0]] == ToServiceProvider(sub, subConfig, handedDown);
      InheritedFrom(sub, subConfig, handedDown, path[1..], n);
      assert PathInner(r, path, n) == r.observers(n).inner + PathInner(sub, path[1..], n);
    }
  }

  // ---------------------------------------------------------------------
  // Propagating an event

  /** The outcome of `propagate_update_event`: the `update` observer's
      outer middlewares, then the observer, whose Rejected is reported as
      Unhandled. */
  function UpdateEvent<R, S, E>(svc: RouterService<R, S, E>, req: R): Result<TO.Response<R>, EventErrorKind> {
    var o := svc.observers(UpdateObserver);
    match OuterFrom(o.outer, req, 0)
    case Err(e) => Err(e)
    case Ok(Cancelled(r)) => Ok(TO.Response(r, TO.Rejected))
    case Ok(Proceed(r)) =>
      match SO.Outcome(o.observer, r)
      case Err(e) => Err(e)
      case Ok(resp) => Ok(TO.Response(r, if resp.propagateResult.Handled? then resp.propagateResult else TO.Unhandled))
  }

  /** `telegram_observer_by_update_type`: the observer serving `t`. */
  function ObserverByUpdateType<R, S, E>(svc: RouterService<R, S, E>, t: UpdateType): ObserverService<R>
    requires t in RoutedTypes()
  {
    svc.observers(TypeObserver(t))
  }

  /** In a tree built from routers whose observers carry their own names,
      the observer found for `t` is the one named after `t`. */
  lemma ObserverByUpdateTypeNamed<R, S, E>(r: RouterValue<R, S, E>, config: Config<R>, t: UpdateType)
    requires WellNamed(r) && t in RoutedTypes()
    ensures ObserverByUpdateType(RootService(r, config), t).observer.eventName == Name(t)
  {
    InheritedAlongPath(r, config, [], TypeObserver(t));
    assert r.observers(TypeObserver(t)).eventName == EventName(TypeObserver(t));
  }

  /** The outcome of `propagate_event` for an update of type `t`: the
      `update` observer's run matters only through its errors; then the
      outer middlewares of the type's observer, where Cancel rejects the
      event. */
  function Propagate<R, S, E>(svc: RouterService<R, S, E>, t: UpdateType, req: R): (res: Result<TO.Response<R>, EventErrorKind>)
    requires t in RoutedTypes()
    ensures res.Ok? && res.value.propagateResult.Rejected? ==> |ObserverByUpdateType(svc, t).outer| > 0 || |svc.subRouters| > 0
    decreases svc, 1
  {
    if UpdateEvent(svc, req).Err? then Err(UpdateEvent(svc, req).error)
    else
      match OuterFrom(ObserverByUpdateType(svc, t).outer, req, 0)
      case Err(e) => Err(e)
      case Ok(Cancelled(r)) => Ok(TO.Response(r, TO.Rejected))
      case Ok(Proceed(r)) => ObserverStage(svc, t, r)
  }

  /** The type's observer with the request the outer middlewares passed
      on: Handled is returned, Rejected is reported as Unhandled, and
      Unhandled passes the event to the sub-routers. */
  function ObserverStage<R, S, E>(svc: RouterService<R, S, E>, t: UpdateType, r: R): (res: Result<TO.Response<R>, EventErrorKind>)
    requires t in RoutedTypes()
    ensures res.Ok? && res.value.propagateResult.Rejected? ==> |svc.subRouters| > 0
    decreases svc, 0
  {
    match SO.Outcome(ObserverByUpdateType(svc, t).observer, r)
    case Err(e) => Err(e)
    case Ok(resp) =>
      if resp.propagateResult.Handled? then Ok(TO.Response(r, resp.propagateResult))
      else if resp.propagateResult.Rejected? then Ok(TO.Response(r, TO.Unhandled))
      else SubRoutersFrom(svc.subRouters, t, r, 0)
  }

  /** The sub-routers from position `i`: an Unhandled one passes the event
      on; the first other response, or the first error, is the result. */
  function SubRoutersFrom<R, S, E>(subs: seq<RouterService<R, S, E>>, t: UpdateType, req: R, i: nat): (res: Result<TO.Response<R>, EventErrorKind>)
    requires t in RoutedTypes() && i <= |subs|
    ensures res.Ok? && res.value.propagateResult.Unhandled? ==>
      res.value.request == req
      && forall k | i <= k < |subs| :: Propagate(subs[k], t, req).Ok? && Propagate(subs[k], t, req).value.propagateResult.Unhandled?
    decreases subs, 0, |subs| - i
  {
    if i == |subs| then Ok(TO.Response(req, TO.Unhandled))
    else
      var r := Propagate(subs[i], t, req);
      if r.Err? then r
      else if r.value.propagateResult.Unhandled? then SubRoutersFrom(subs, t, req, i + 1)
      else r
  }

  /** `propagate_update_event`. */
  method PropagateUpdateEvent<R, S, E>(svc: RouterService<R, S, E>, req: R) returns (r: Result<TO.Response<R>, EventErrorKind>)
    ensures r == UpdateEvent(svc, req)
  {
    var observer := svc.observers(UpdateObserver);
    var outer := RunOuterMiddlewares(observer.outer, req);
    if outer.Err? {
      return Err(outer.error);
    }
    var request := outer.value.request;
    if outer.value.Cancelled? {
      return Ok(TO.Response(request, TO.Rejected));
    }
    var response := SO.Trigger(observer.observer, request);
    if response.Err? {
      return Err(response.error);
    }
    match response.value.propagateResult
    case Unhandled =>
      return Ok(TO.Response(request, TO.Unhandled));
    case Handled(handled) =>
      return Ok(TO.Response(request, TO.Handled(handled)));
    case Rejected =>
      return Ok(TO.Response(request, TO.Unhandled));
  }

  /** `propagate_event`. */
  method PropagateEvent<R, S, E>(svc: RouterService<R, S, E>, t: UpdateType, req: R) returns (r: Result<TO.Response<R>, EventErrorKind>)
    requires t in RoutedTypes()
    ensures r == Propagate(svc, t, req)
    decreases svc, 1
  {
    var update := PropagateUpdateEvent(svc, req);
    if update.Err? {
      return Err(update.error);
    }
    var observer := ObserverByUpdateType(svc, t);
    var outer := RunOuterMiddlewares(observer.outer, req);
    if outer.Err? {
      return Err(outer.error);
    }
    var request := outer.value.request;
    if outer.value.Cancelled? {
      return Ok(TO.Response(request, TO.Rejected));
    }
    r := PropagateFromObserver(svc, t, request);
  }

  /** The rest of `propagate_event`, from the observer's trigger on. */
  method PropagateFromObserver<R, S, E>(svc: RouterService<R, S, E>, t: UpdateType, request: R) returns (r: Result<TO.Response<R>, EventErrorKind>)
    requires t in RoutedTypes()
    ensures r == ObserverStage(svc, t, request)
    decreases svc, 0
  {
    var response := SO.Trigger(ObserverByUpdateType(svc, t).observer, request);
    if response.Err? {
      return Err(response.error);
    }
    match response.value.propagateResult {
      case Unhandled =>
      case Handled(handled) =>
        return Ok(TO.Response(request, TO.Handled(handled)));
      case Rejected =>
        return Ok(TO.Response(request, TO.Unhandled));
    }
    r := PropagateToSubRouters(svc.subRouters, t, request);
  }

  /** The loop over the sub-routers. */
  method PropagateToSubRouters<R, S, E>(subs: seq<RouterService<R, S, E>>, t: UpdateType, request: R) returns (r: Result<TO.Response<R>, EventErrorKind>)
    requires t in RoutedTypes()
    ensures r == SubRoutersFrom(subs, t, request, 0)
    decreases subs, 1
  {
    for i := 0 to |subs|
      invariant SubRoutersFrom(subs, t, request, 0) == SubRoutersFrom(subs, t, request, i)
    {
      var routerResponse := PropagateEvent(subs[i], t, request);
      if routerResponse.Err? {
        return Err(routerResponse.error);
      }
      match routerResponse.value.propagateResult {
        case Unhandled =>
          continue;
        case Handled(_) =>
          return routerResponse;
        case Rejected =>
          return routerResponse;
      }
    }
    return Ok(TO.Response(request, TO.Unhandled));
  }

  /** The cases of `propagate_event`: an error of the `update` observer's
      run or of an outer middleware is returned; a cancelling outer
      middleware rejects the event without the observer being triggered;
      a handled event is returned and a rejected one is reported as
      unhandled, neither reaching the sub-routers; an unhandled one goes
      to the sub-routers. */
  lemma PropagateCases<R, S, E>(svc: RouterService<R, S, E>, t: UpdateType, req: R)
    requires t in RoutedTypes()
    ensures UpdateEvent(svc, req).Err? ==> Propagate(svc, t, req) == Err(UpdateEvent(svc, req).error)
    ensures UpdateEvent(svc, req).Ok? ==>
      var o := svc.observers(TypeObserver(t));
      var outer := OuterFrom(o.outer, req, 0);
      (outer.Err? ==> Propagate(svc, t, req) == Err(outer.error))
      && (outer.Ok? && outer.value.Cancelled? ==> Propagate(svc, t, req) == Ok(TO.Response(outer.value.request, TO.Rejected)))
      && (outer.Ok? && outer.value.Proceed? ==>
            var r := outer.value.request;
            var c := SO.Outcome(o.observer, r);
            (c.Err? ==> Propagate(svc, t, req) == Err(c.error))
            && (c.Ok? && c.value.propagateResult.Handled? ==> Propagate(svc, t, req) == Ok(TO.Response(r, c.value.propagateResult)))
            && (c.Ok? && c.value.propagateResult.Rejected? ==> Propagate(svc, t, req) == Ok(TO.Response(r, TO.Unhandled)))
            && (c.Ok? && c.value.propagateResult.Unhandled? ==> Propagate(svc, t, req) == SubRoutersFrom(svc.subRouters, t, r, 0)))
  {
  }

  /** Sub-routers that leave the event unhandled pass it on. */
  lemma SubRoutersPassOver<R, S, E>(subs: seq<RouterService<R, S, E>>, t: UpdateType, req: R, i: nat, j: nat)
    requires t in RoutedTypes() && i <= j <= |subs|
    requires forall k | i <= k < j :: Propagate(subs[k], t, req).Ok? && Propagate(subs[k], t, req).value.propagateResult.Unhandled?
    ensures SubRoutersFrom(subs, t, req, i) == SubRoutersFrom(subs, t, req, j)
  {
    forall k | i <= k < j
      ensures SubRoutersFrom(subs, t, req, k) == SubRoutersFrom(subs, t, req, k + 1)
    {
      SubRoutersStep(subs, t, req, k, Propagate(subs[k], t, req));
    }
    SubRoutersChain(subs, t, req, i, j);
  }

  /** Positions that each pass the event on to the next give one result. */
  lemma {:induction false} SubRoutersChain<R, S, E>(subs: seq<RouterService<R, S, E>>, t: UpdateType, req: R, i: nat, j: nat)
    requires t in RoutedTypes() && i <= j <= |subs|
    requires forall k | i <= k < j :: SubRoutersFrom(subs, t, req, k) == SubRoutersFrom(subs, t, req, k + 1)
    ensures SubRoutersFrom(subs, t, req, i) == SubRoutersFrom(subs, t, req, j)
    decreases j - i
  {
    if i < j {
      SubRoutersChain(subs, t, req, i + 1, j);
    }
  }

  /** One sub-router that leaves the event unhandled passes it on. */
  lemma SubRoutersStep<R, S, E>(subs: seq<RouterService<R, S, E>>, t: UpdateType, req: R, i: nat, r: Result<TO.Response<R>, EventErrorKind>)
    requires t in RoutedTypes() && i < |subs|
    requires r == Propagate(subs[i], t, req) && r.Ok? && r.value.propagateResult.Unhandled?
    ensures SubRoutersFrom(subs, t, req, i) == SubRoutersFrom(subs, t, req, i + 1)
  {
  }

  /** The first sub-router that does not leave the event unhandled decides:
      its error or its response, Rejected included, is the result; when
      all leave it unhandled, so does the router. */
  lemma FirstConcludingSubRouter<R, S, E>(subs: seq<RouterService<R, S, E>>, t: UpdateType, req: R, j: nat)
    requires t in RoutedTypes() && j <= |subs|
    requires forall k | 0 <= k < j :: Propagate(subs[k], t, req).Ok? && Propagate(subs[k], t, req).value.propagateResult.Unhandled?
    ensures j == |subs| ==> SubRoutersFrom(subs, t, req, 0) == Ok(TO.Response(req, TO.Unhandled))
    ensures j < |subs| && !(Propagate(subs[j], t, req).Ok? && Propagate(subs[j], t, req).value.propagateResult.Unhandled?) ==>
      SubRoutersFrom(subs, t, req, 0) == Propagate(subs[j], t, req)
  {
    SubRoutersPassOver(subs, t, req, 0, j);
  }

  /** The `update` observer's run affects `propagate_event` only through
      its errors: two routers that differ only in their `update` observer,
      whose runs both succeed, propagate every event alike. */
  lemma UpdateRunOnlyErrors<R, S, E>(svc: RouterService<R, S, E>, other: RouterService<R, S, E>, t: UpdateType, req: R)
    requires t in RoutedTypes()
    requires other.subRouters == svc.subRouters
    requires other.observers(TypeObserver(t)) == svc.observers(TypeObserver(t))
    requires UpdateEvent(svc, req).Ok? && UpdateEvent(other, req).Ok?
    ensures Propagate(svc, t, req) == Propagate(other, t, req)
  {
    var o := svc.observers(TypeObserver(t));
    match OuterFrom(o.outer, req, 0)
    case Err(e) =>
    case Ok(Cancelled(r)) =>
    case Ok(Proceed(r)) =>
      ObserverStageAgree(svc, other, t, r);
  }

  lemma ObserverStageAgree<R, S, E>(svc: RouterService<R, S, E>, other: RouterService<R, S, E>, t: UpdateType, r: R)
    requires t in RoutedTypes()
    requires other.subRouters == svc.subRouters
    requires other.observers(TypeObserver(t)) == svc.observers(TypeObserver(t))
    ensures ObserverStage(svc, t, r) == ObserverStage(other, t, r)
  {
  }

  // ---------------------------------------------------------------------
  // Startup and shutdown

  /** The observers `emit_startup` triggers: the router's own, then those
      of its direct sub-routers; deeper routers are not reached. */
  function StartupObservers<R, S, E>(svc: RouterService<R, S, E>): (obs: seq<Simple.Service<S, E>>)
    ensures |obs| == |svc.subRouters| + 1 && obs[0] == svc.startup
    ensures forall i | 0 <= i < |svc.subRouters| :: obs[i + 1] == svc.subRouters[i].startup
  {
    [svc.startup] + seq(|svc.subRouters|, i requires 0 <= i < |svc.subRouters| => svc.subRouters[i].startup)
  }

  /** The same for `emit_shutdown`. */
  function ShutdownObservers<R, S, E>(svc: RouterService<R, S, E>): (obs: seq<Simple.Service<S, E>>)
    ensures |obs| == |svc.subRouters| + 1 && obs[0] == svc.shutdown
    ensures forall i | 0 <= i < |svc.subRouters| :: obs[i + 1] == svc.subRouters[i].shutdown
  {
    [svc.shutdown] + seq(|svc.subRouters|, i requires 0 <= i < |svc.subRouters| => svc.subRouters[i].shutdown)
  }

  /** `emit_startup`. */
  method EmitStartup<R, S, E>(svc: RouterService<R, S, E>, world: S) returns (after: S, r: Result<(), E>)
    ensures Simple.Step(after, r) == Simple.TriggerEach(StartupObservers(svc), world)
  {
    after, r := Simple.EmitEach(StartupObservers(svc), world);
  }

  /** `emit_shutdown`. */
  method EmitShutdown<R, S, E>(svc: RouterService<R, S, E>, world: S) returns (after: S, r: Result<(), E>)
    ensures Simple.Step(after, r) == Simple.TriggerEach(ShutdownObservers(svc), world)
  {
    after, r := Simple.EmitEach(ShutdownObservers(svc), world);
  }
}
