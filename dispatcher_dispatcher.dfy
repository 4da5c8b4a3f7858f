// The dispatcher of the oldest generation (src/dispatcher/dispatcher.rs):
// its builder, whose methods change the builder's fields in place, the
// update-type check of `feed_update`, and the offset rule of its polling
// loop. The main router, the bots and the backoff are type parameters.
module DispatcherDispatcher {
  import opened Wrappers
  import opened SrcTypes
  import opened UpdateTypes
  import Polling

  /** `DEFAULT_POLLING_TIMEOUT`. */
  const DEFAULT_POLLING_TIMEOUT: int := 30

  /** `GET_UPDATES_SIZE`. */
  const GET_UPDATES_SIZE: int := 100

  datatype Dispatcher<P, B, K> = Dispatcher(
    mainRouter: P,
    bots: seq<B>,
    pollingTimeout: Option<int>,
    backoff: K,
    allowedUpdates: Option<seq<string>>)

  /** `DispatcherBuilder`. */
  class DispatcherBuilder<P, B, K> {
    var mainRouter: P
    var bots: seq<B>
    var pollingTimeout: Option<int>
    var backoff: K
    var allowedUpdates: Option<seq<string>>

    /** `default`: the router's and the backoff's defaults, no bots, the
        default timeout and no list of update types at all. */
    constructor (defaultRouter: P, defaultBackoff: K)
      ensures mainRouter == defaultRouter && backoff == defaultBackoff
      ensures bots == [] && pollingTimeout == Some(30) && allowedUpdates == None
    {
      mainRouter := defaultRouter;
      bots := [];
      pollingTimeout := Some(DEFAULT_POLLING_TIMEOUT);
      backoff := defaultBackoff;
      allowedUpdates := None;
    }

    /** `main_router` (and its alias `router`). */
    method MainRouter(val: P)
      modifies this
      ensures mainRouter == val
      ensures bots == old(bots) && pollingTimeout == old(pollingTimeout) && backoff == old(backoff) && allowedUpdates == old(allowedUpdates)
    {
      mainRouter := val;
    }

    /** `bot`: pushes one bot. */
    method Bot(val: B)
      modifies this
      ensures bots == old(bots) + [val]
      ensures mainRouter == old(mainRouter) && pollingTimeout == old(pollingTimeout) && backoff == old(backoff) && allowedUpdates == old(allowedUpdates)
    {
      bots := bots + [val];
    }

    /** `bots`: extends with the given bots, in order. */
    method Bots(val: seq<B>)
      modifies this
      ensures bots == old(bots) + val
      ensures mainRouter == old(mainRouter) && pollingTimeout == old(pollingTimeout) && backoff == old(backoff) && allowedUpdates == old(allowedUpdates)
    {
      bots := bots + val;
    }

    /** `polling_timeout`. */
    method PollingTimeout(val: int)
      modifies this
      ensures pollingTimeout == Some(val)
      ensures mainRouter == old(mainRouter) && bots == old(bots) && backoff == old(backoff) && allowedUpdates == old(allowedUpdates)
    {
      pollingTimeout := Some(val);
    }

    /** `backoff`. */
    method Backoff(val: K)
      modifies this
      ensures backoff == val
      ensures mainRouter == old(mainRouter) && bots == old(bots) && pollingTimeout == old(pollingTimeout) && allowedUpdates == old(allowedUpdates)
    {
      backoff := val;
    }

    /** `allowed_update`: the list is created when there is none, then the
        name is pushed. */
    method AllowedUpdate(val: string)
      modifies this
      ensures allowedUpdates == AddAllowed(old(allowedUpdates), AllowOne(val))
      ensures mainRouter == old(mainRouter) && bots == old(bots) && pollingTimeout == old(pollingTimeout) && backoff == old(backoff)
    {
      var list := if allowedUpdates.Some? then allowedUpdates.value else [];
      allowedUpdates := Some(list + [val]);
    }

    /** `allowed_updates`: the list is replaced by the given names. */
    method AllowedUpdates(val: seq<string>)
      modifies this
      ensures allowedUpdates == AddAllowed(old(allowedUpdates), AllowMany(val))
      ensures mainRouter == old(mainRouter) && bots == old(bots) && pollingTimeout == old(pollingTimeout) && backoff == old(backoff)
    {
      allowedUpdates := Some(val);
    }

    /** `build`: every field carried over. */
    function Build(): (d: Dispatcher<P, B, K>)
      reads this
      ensures d.mainRouter == mainRouter && d.bots == bots && d.pollingTimeout == pollingTimeout
      ensures d.backoff == backoff && d.allowedUpdates == allowedUpdates
    {
      Dispatcher(mainRouter, bots, pollingTimeout, backoff, allowedUpdates)
    }
  }

  /** A call that sets the allowed update types. */
  datatype AllowCall = AllowOne(name: string) | AllowMany(names: seq<string>)

  /** The list after one call. */
  function AddAllowed(list: Option<seq<string>>, call: AllowCall): (r: Option<seq<string>>)
    ensures r.Some?
    ensures call.AllowOne? ==> r.value == (if list.Some? then list.value else []) + [call.name]
    ensures call.AllowMany? ==> r.value == call.names
  {
    match call
    case AllowOne(name) => Some((if list.Some? then list.value else []) + [name])
    case AllowMany(names) => Some(names)
  }

  /** The list after a series of calls, starting from none. */
  function AllowedAfter(calls: seq<AllowCall>): Option<seq<string>>
    decreases |calls|
  {
    if |calls| == 0 then None else AddAllowed(AllowedAfter(calls[..|calls| - 1]), calls[|calls| - 1])
  }

  /** The names of the single calls among `calls`, in order. */
  function SingleNames(calls: seq<AllowCall>): seq<string>
    decreases |calls|
  {
    if |calls| == 0 then []
    else SingleNames(calls[..|calls| - 1]) + (if calls[|calls| - 1].AllowOne? then [calls[|calls| - 1].name] else [])
  }

  /** `allowed_updates` replaces and `allowed_update` appends: the list is
      the last `allowed_updates` call's names followed by the single names
      given after it; with no such call, it is the single names, and there
      is no list at all until some call is made. */
  lemma {:induction false} AllowedAfterCalls(calls: seq<AllowCall>, k: nat)
    requires k <= |calls|
    requires k > 0 ==> calls[k - 1].AllowMany?
    requires forall j | k <= j < |calls| :: calls[j].AllowOne?
    ensures |calls| == 0 ==> AllowedAfter(calls) == None
    ensures k > 0 ==> AllowedAfter(calls) == Some(calls[k - 1].names + SingleNames(calls[k..]))
    ensures k == 0 && |calls| > 0 ==> AllowedAfter(calls) == Some(SingleNames(calls))
    decreases |calls|
  {
    if |calls| > k {
      var n := |calls| - 1;
      AllowedAfterCalls(calls[..n], k);
      assert calls[k..][..|calls[k..]| - 1] == calls[..n][k..];
      assert calls[k..][|calls[k..]| - 1] == calls[n] && calls[n].AllowOne?;
      assert k > 0 ==> calls[..n][k - 1] == calls[k - 1];
      assert SingleNames(calls[k..]) == SingleNames(calls[..n][k..]) + [calls[n].name];
      if k > 0 {
        var names := calls[k - 1].names;
        assert (names + SingleNames(calls[..n][k..])) + [calls[n].name] == names + SingleNames(calls[k..]);
      } else if n == 0 {
        assert SingleNames(calls) == [calls[0].name];
      }
    } else if k > 0 {
      assert calls[k..] == [];
      assert calls[k - 1].names + SingleNames(calls[k..]) == calls[k - 1].names;
    }
  }

  /** The builder after the calls, in order. */
  method ApplyAllowCalls<P, B, K>(builder: DispatcherBuilder<P, B, K>, calls: seq<AllowCall>)
    requires builder.allowedUpdates == None
    modifies builder
    ensures builder.allowedUpdates == AllowedAfter(calls)
    ensures builder.bots == old(builder.bots) && builder.pollingTimeout == old(builder.pollingTimeout)
  {
    for i := 0 to |calls|
      invariant builder.allowedUpdates == AllowedAfter(calls[..i])
      invariant builder.bots == old(builder.bots) && builder.pollingTimeout == old(builder.pollingTimeout)
    {
      assert calls[..i + 1][..i] == calls[..i];
      match calls[i] {
        case AllowOne(name) => builder.AllowedUpdate(name);
        case AllowMany(names) => builder.AllowedUpdates(names);
      }
    }
    assert calls[..|calls|] == calls;
  }

  // ---------------------------------------------------------------------
  // Feeding updates

  /** `UnknownUpdateTypeError`. */
  datatype UnknownUpdateTypeError = UnknownUpdateTypeError

  /** The router's request: the bot, the update and the context. */
  datatype Request<B, C> = Request(bot: B, update: Update, context: C)

  /** `feed_update`: an update whose type cannot be told is refused with
      that error and never reaches the router; otherwise the main router
      propagates it under its type with an empty context. The conversion
      `classify` stands for the `TryFrom<&Update>` of this generation's
      update type, and `propagate` for the router's `propagate_event`. */
  function FeedUpdate<B, C, T>(classify: Update -> Result<UpdateType, UnknownUpdateTypeError>,
                               propagate: (UpdateType, Request<B, C>) -> T, bot: B, update: Update, emptyContext: C): (r: Result<T, UnknownUpdateTypeError>)
    ensures r.Err? <==> classify(update).Err?
    ensures r.Ok? ==> r.value == propagate(classify(update).value, Request(bot, update, emptyContext))
  {
    match classify(update)
    case Err(e) => Err(e)
    case Ok(t) => Ok(propagate(t, Request(bot, update, emptyContext)))
  }

  /** `listen_updates` of this generation: the same loop, the offset one
      past the last `update_id`, and the names as given to the builder. */
  method ListenUpdates(pollingTimeout: Option<int>, allowed: Option<seq<string>>, answers: seq<Polling.Answer<Update>>)
    returns (requests: seq<Polling.GetUpdates<Option<seq<string>>>>, sent: seq<Update>, offset: Option<int>, failed: bool)
    ensures |requests| == |answers|
    ensures forall k | 0 <= k < |answers| ::
      requests[k] == Polling.GetUpdates(Polling.OffsetAfter(UpdateId, answers[..k]), GET_UPDATES_SIZE, pollingTimeout, allowed)
    ensures sent == Polling.Sent(answers) && offset == Polling.OffsetAfter(UpdateId, answers) && failed == Polling.FailedAfter(answers)
  {
    requests, sent, offset, failed := Polling.Listen(UpdateId, GET_UPDATES_SIZE, pollingTimeout, allowed, answers);
  }

  function UpdateId(u: Update): int {
    u.updateId
  }
}
