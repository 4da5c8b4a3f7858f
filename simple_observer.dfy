// The observers of non-Telegram events (startup and shutdown): every
// handler runs, in registration order, and the first error stops the run.
// The three generations' files (src/event/simple/observer.rs,
// src/dispatcher/event/simple/observer.rs and
// src/dispatcher/event/event_observer.rs) share this loop. A handler's
// effects are modelled by the world `S` it transforms, so that which
// handlers ran is visible; its bound arguments are part of the function.
module SimpleObserver {
  import opened Wrappers

  /** A handler's run: the world after it, and its result. */
  datatype Step<S, E> = Step(world: S, result: Result<(), E>)

  type Handler<!S, E> = S -> Step<S, E>

  /** Runs `handlers` in order from `world`, stopping at the first error. */
  function RunAll<S, E>(handlers: seq<Handler<S, E>>, world: S): Step<S, E>
    decreases |handlers|
  {
    if |handlers| == 0 then Step(world, Ok(()))
    else
      var step := handlers[0](world);
      if step.result.Err? then step else RunAll(handlers[1..], step.world)
  }

  /** Running two lists is running the first, then, if it did not fail,
      the second from where the first left the world. */
  lemma {:induction false} RunAllAppend<S, E>(hs: seq<Handler<S, E>>, gs: seq<Handler<S, E>>, world: S)
    ensures RunAll(hs + gs, world)
         == if RunAll(hs, world).result.Err? then RunAll(hs, world) else RunAll(gs, RunAll(hs, world).world)
    decreases |hs|
  {
    if |hs| == 0 {
      assert hs + gs == gs;
    } else {
      assert (hs + gs)[1..] == hs[1..] + gs;
      var step := hs[0](world);
      if step.result.Ok? {
        RunAllAppend(hs[1..], gs, step.world);
      }
    }
  }

  /** The first failing handler's error and world are the run's; the
      handlers after it never run. */
  lemma StopsAtFirstError<S, E>(hs: seq<Handler<S, E>>, world: S, k: nat)
    requires k < |hs|
    requires RunAll(hs[..k], world).result.Ok?
    requires hs[k](RunAll(hs[..k], world).world).result.Err?
    ensures RunAll(hs, world) == hs[k](RunAll(hs[..k], world).world)
  {
    assert hs == hs[..k] + hs[k..];
    RunAllAppend(hs[..k], hs[k..], world);
    assert hs[k..][0] == hs[k];
  }

  /** With no handlers the run succeeds and the world is untouched. */
  lemma NoHandlers<S, E>(world: S)
    ensures RunAll<S, E>([], world) == Step(world, Ok(()))
  {
  }

  /** The built observer. */
  datatype Service<!S, E> = Service(eventName: string, handlers: seq<Handler<S, E>>)

  /** `trigger`: each handler in order; the first error is returned at
      once; otherwise the run succeeds. */
  method Trigger<S, E>(svc: Service<S, E>, world: S) returns (after: S, r: Result<(), E>)
    ensures Step(after, r) == RunAll(svc.handlers, world)
  {
    var w := world;
    for i := 0 to |svc.handlers|
      invariant RunAll(svc.handlers, world) == RunAll(svc.handlers[i..], w)
    {
      assert svc.handlers[i..][1..] == svc.handlers[i + 1..];
      var step := svc.handlers[i](w);
      if step.result.Err? {
        return step.world, step.result;
      }
      w := step.world;
    }
    assert svc.handlers[|svc.handlers|..] == [];
    return w, Ok(());
  }

  /** `Observer`: the handlers registered so far. */
  class Observer<S, E> {
    const eventName: string
    var handlers: seq<Handler<S, E>>

    /** `new`: no handlers. */
    constructor (eventName: string)
      ensures this.eventName == eventName && handlers == []
    {
      this.eventName := eventName;
      handlers := [];
    }

    /** `register`: one more handler, after the others. */
    method Register(h: Handler<S, E>)
      modifies this
      ensures handlers == old(handlers) + [h]
    {
      handlers := handlers + [h];
    }

    /** `to_service_provider` / `new_service`. */
    function ToService(): (s: Service<S, E>)
      reads this
      ensures s.eventName == eventName && s.handlers == handlers
    {
      Service(eventName, handlers)
    }
  }

  /** A handler registered last runs after all the others, and only when
      none of them failed. */
  lemma RegisteredLastRunsLast<S, E>(hs: seq<Handler<S, E>>, h: Handler<S, E>, world: S)
    ensures RunAll(hs + [h], world)
         == if RunAll(hs, world).result.Err? then RunAll(hs, world) else h(RunAll(hs, world).world)
  {
    RunAllAppend(hs, [h], world);
    var w := RunAll(hs, world).world;
    assert [h][1..] == [];
    assert RunAll([h], w) == (if h(w).result.Err? then h(w) else RunAll([], h(w).world));
    if h(w).result.Ok? {
      var step := h(w);
      match step.result
      case Ok(u) => assert u == ();
    }
  }

  /** Observers triggered in turn, as routers emit startup and shutdown:
      each runs its handlers, and the first error stops everything. */
  function TriggerEach<S, E>(observers: seq<Service<S, E>>, world: S): Step<S, E>
    decreases |observers|
  {
    if |observers| == 0 then Step(world, Ok(()))
    else
      var step := RunAll(observers[0].handlers, world);
      if step.result.Err? then step else TriggerEach(observers[1..], step.world)
  }

  /** The handlers of the observers, observer after observer. */
  function AllHandlers<S, E>(observers: seq<Service<S, E>>): seq<Handler<S, E>>
    decreases |observers|
  {
    if |observers| == 0 then [] else observers[0].handlers + AllHandlers(observers[1..])
  }

  /** Triggering the observers in turn is one run of all their handlers in
      order. */
  lemma {:induction false} TriggerEachIsOneRun<S, E>(observers: seq<Service<S, E>>, world: S)
    ensures TriggerEach(observers, world) == RunAll(AllHandlers(observers), world)
    decreases |observers|
  {
    if |observers| > 0 {
      RunAllAppend(observers[0].handlers, AllHandlers(observers[1..]), world);
      var step := RunAll(observers[0].handlers, world);
      if step.result.Ok? {
        TriggerEachIsOneRun(observers[1..], step.world);
      }
    }
  }

  /** The loop of `emit_startup` / `emit_shutdown`: each observer is
      triggered, and its error is returned at once. */
  method EmitEach<S, E>(observers: seq<Service<S, E>>, world: S) returns (after: S, r: Result<(), E>)
    ensures Step(after, r) == TriggerEach(observers, world)
  {
    var w := world;
    for i := 0 to |observers|
      invariant TriggerEach(observers, world) == TriggerEach(observers[i..], w)
    {
      assert observers[i..][1..] == observers[i + 1..];
      var next, result := Trigger(observers[i], w);
      if result.Err? {
        return next, result;
      }
      w := next;
    }
    assert observers[|observers|..] == [];
    return w, Ok(());
  }
}
