// The dispatcher of the newest generation (telers/src/dispatcher.rs): its
// consuming builder, `feed_update`, and the offset bookkeeping of the
// long-polling loop. The main router, the bots and the backoff are type
// parameters; the Telegram server's answers to `getUpdates` are an input
// sequence, so one run of the (endless) loop is modelled over finitely many
// answers.
module TelersDispatcher {
  import opened Wrappers
  import opened TelersTypes
  import opened UpdateTypes
  import Polling

  /** `DEFAULT_POLLING_TIMEOUT`. */
  const DEFAULT_POLLING_TIMEOUT: int := 30

  /** `GET_UPDATES_SIZE`, the `limit` of every `getUpdates` call. */
  const GET_UPDATES_SIZE: int := 100

  datatype Builder<P, B, K> = Builder(
    mainRouter: P,
    bots: seq<B>,
    pollingTimeout: Option<int>,
    backoff: K,
    allowedUpdates: seq<UpdateType>)

  datatype Dispatcher<P, B, K> = Dispatcher(
    mainRouter: P,
    bots: seq<B>,
    pollingTimeout: Option<int>,
    backoff: K,
    allowedUpdates: seq<UpdateType>)

  /** `Builder::default_with_backoff` (and `default`, whose backoff is the
      default exponential one): the router's default, no bots, the default
      timeout and no update types. */
  function DefaultWithBackoff<P, B, K>(defaultRouter: P, backoff: K): (b: Builder<P, B, K>)
    ensures b.mainRouter == defaultRouter && b.backoff == backoff
    ensures b.bots == [] && b.allowedUpdates == []
    ensures b.pollingTimeout == Some(30)
  {
    Builder(defaultRouter, [], Some(DEFAULT_POLLING_TIMEOUT), backoff, [])
  }

  /** `main_router` (and its alias `router`). */
  function MainRouter<P, B, K>(b: Builder<P, B, K>, val: P): (r: Builder<P, B, K>)
    ensures r.mainRouter == val
    ensures r.bots == b.bots && r.pollingTimeout == b.pollingTimeout && r.backoff == b.backoff && r.allowedUpdates == b.allowedUpdates
  {
    b.(mainRouter := val)
  }

  /** `bot`: one more bot, after those already given. */
  function AddBot<P, B, K>(b: Builder<P, B, K>, val: B): (r: Builder<P, B, K>)
    ensures |r.bots| == |b.bots| + 1 && r.bots[|b.bots|] == val && r.bots[..|b.bots|] == b.bots
    ensures r.mainRouter == b.mainRouter && r.pollingTimeout == b.pollingTimeout && r.backoff == b.backoff && r.allowedUpdates == b.allowedUpdates
  {
    b.(bots := b.bots + [val])
  }

  /** `bots`: every given bot, in order, after those already given. */
  function AddBots<P, B, K>(b: Builder<P, B, K>, val: seq<B>): (r: Builder<P, B, K>)
    ensures |r.bots| == |b.bots| + |val| && r.bots[..|b.bots|] == b.bots && r.bots[|b.bots|..] == val
    ensures r.mainRouter == b.mainRouter && r.pollingTimeout == b.pollingTimeout && r.backoff == b.backoff && r.allowedUpdates == b.allowedUpdates
  {
    b.(bots := b.bots + val)
  }

  /** `polling_timeout`. */
  function PollingTimeout<P, B, K>(b: Builder<P, B, K>, val: int): (r: Builder<P, B, K>)
    ensures r.pollingTimeout == Some(val)
    ensures r.mainRouter == b.mainRouter && r.bots == b.bots && r.backoff == b.backoff && r.allowedUpdates == b.allowedUpdates
  {
    b.(pollingTimeout := Some(val))
  }

  /** `backoff`. */
  function Backoff<P, B, K>(b: Builder<P, B, K>, val: K): (r: Builder<P, B, K>)
    ensures r.backoff == val
    ensures r.mainRouter == b.mainRouter && r.bots == b.bots && r.pollingTimeout == b.pollingTimeout && r.allowedUpdates == b.allowedUpdates
  {
    b.(backoff := val)
  }

  /** `allowed_update`: one more update type, after the others. */
  function AllowedUpdate<P, B, K>(b: Builder<P, B, K>, val: UpdateType): (r: Builder<P, B, K>)
    ensures |r.allowedUpdates| == |b.allowedUpdates| + 1 && r.allowedUpdates[|b.allowedUpdates|] == val
    ensures r.allowedUpdates[..|b.allowedUpdates|] == b.allowedUpdates
    ensures r.mainRouter == b.mainRouter && r.bots == b.bots && r.pollingTimeout == b.pollingTimeout && r.backoff == b.backoff
  {
    b.(allowedUpdates := b.allowedUpdates + [val])
  }

  /** `allowed_updates`: the given types appended; nothing already given is
      replaced. */
  function AllowedUpdates<P, B, K>(b: Builder<P, B, K>, val: seq<UpdateType>): (r: Builder<P, B, K>)
    ensures |r.allowedUpdates| == |b.allowedUpdates| + |val|
    ensures r.allowedUpdates[..|b.allowedUpdates|] == b.allowedUpdates && r.allowedUpdates[|b.allowedUpdates|..] == val
    ensures r.mainRouter == b.mainRouter && r.bots == b.bots && r.pollingTimeout == b.pollingTimeout && r.backoff == b.backoff
  {
    b.(allowedUpdates := b.allowedUpdates + val)
  }

  /** `build`: every field carried over. */
  function Build<P, B, K>(b: Builder<P, B, K>): (d: Dispatcher<P, B, K>)
    ensures d.mainRouter == b.mainRouter && d.bots == b.bots && d.pollingTimeout == b.pollingTimeout
    ensures d.backoff == b.backoff && d.allowedUpdates == b.allowedUpdates
  {
    Dispatcher(b.mainRouter, b.bots, b.pollingTimeout, b.backoff, b.allowedUpdates)
  }

  /** Adding bots one by one with `bot`. */
  function AddEachBot<P, B, K>(b: Builder<P, B, K>, val: seq<B>): Builder<P, B, K>
    decreases |val|
  {
    if |val| == 0 then b else AddEachBot(AddBot(b, val[0]), val[1..])
  }

  /** `bots` is `bot` for each of the given bots in turn. */
  lemma {:induction false} AddBotsIsEachBot<P, B, K>(b: Builder<P, B, K>, val: seq<B>)
    ensures AddBots(b, val) == AddEachBot(b, val)
    decreases |val|
  {
    if |val| > 0 {
      AddBotsIsEachBot(AddBot(b, val[0]), val[1..]);
      assert b.bots + val == (b.bots + [val[0]]) + val[1..];
    } else {
      assert b.bots + val == b.bots;
    }
  }

  /** Adding update types one by one with `allowed_update`. */
  function AllowEachUpdate<P, B, K>(b: Builder<P, B, K>, val: seq<UpdateType>): Builder<P, B, K>
    decreases |val|
  {
    if |val| == 0 then b else AllowEachUpdate(AllowedUpdate(b, val[0]), val[1..])
  }

  /** `allowed_updates` is `allowed_update` for each type in turn. */
  lemma {:induction false} AllowedUpdatesIsEachUpdate<P, B, K>(b: Builder<P, B, K>, val: seq<UpdateType>)
    ensures AllowedUpdates(b, val) == AllowEachUpdate(b, val)
    decreases |val|
  {
    if |val| > 0 {
      AllowedUpdatesIsEachUpdate(AllowedUpdate(b, val[0]), val[1..]);
      assert b.allowedUpdates + val == (b.allowedUpdates + [val[0]]) + val[1..];
    } else {
      assert b.allowedUpdates + val == b.allowedUpdates;
    }
  }

  /** A builder given one bot with `bot` and another with `bots`, a timeout
      of 123, one update type and then two more has two bots, that timeout
      and three update types. */
  lemma BuilderExample<P, B, K>(router: P, defaultRouter: P, backoff: K, bot: B)
    ensures var d := Build(AllowedUpdates(AllowedUpdate(PollingTimeout(AddBots(AddBot(MainRouter(DefaultWithBackoff(defaultRouter, backoff), router), bot), [bot]), 123), MessageType), [InlineQueryType, ChosenInlineResultType]));
      |d.bots| == 2 && d.pollingTimeout == Some(123) && |d.allowedUpdates| == 3 && d.mainRouter == router
  {
  }

  // ---------------------------------------------------------------------
  // Feeding updates

  /** The router's request: the bot, the update and the context. */
  datatype Request<B, C> = Request(bot: B, update: Update, context: C)

  /** `feed_update_with_context`: the update is propagated by the main
      router under its own type (`propagate` stands for the router
      service's `propagate_event`). */
  function FeedUpdateWithContext<B, C, T>(propagate: (UpdateType, Request<B, C>) -> T, bot: B, update: Update, context: C): (r: T)
    ensures r == propagate(OfKind(update.kind), Request(bot, update, context))
  {
    propagate(OfUpdate(update), Request(bot, update, context))
  }

  /** `feed_update`: the same with a new, empty context. */
  function FeedUpdate<B, C, T>(propagate: (UpdateType, Request<B, C>) -> T, bot: B, update: Update, emptyContext: C): (r: T)
    ensures r == FeedUpdateWithContext(propagate, bot, update, emptyContext)
  {
    FeedUpdateWithContext(propagate, bot, update, emptyContext)
  }

  /** Two updates of the same kind of event reach the router under the same
      type, whatever their payloads. */
  lemma FeedUpdateByKind<B, C, T>(propagate: (UpdateType, Request<B, C>) -> T, bot: B, a: Update, b: Update, context: C)
    requires SameVariant(a.kind, b.kind)
    ensures FeedUpdateWithContext(propagate, bot, b, context) == propagate(OfUpdate(a), Request(bot, b, context))
  {
    OfKindPreservesVariant(a.kind, b.kind);
  }

  // ---------------------------------------------------------------------
  // Long polling

  /** The names `getUpdates` is given for the allowed update types. */
  function AllowedNames(allowed: seq<UpdateType>): (names: seq<string>)
    ensures |names| == |allowed| && forall i | 0 <= i < |allowed| :: FromStr(names[i]) == Some(allowed[i])
  {
    NamesParse(allowed);
    seq(|allowed|, i requires 0 <= i < |allowed| => Name(allowed[i]))
  }

  lemma NamesParse(allowed: seq<UpdateType>)
    ensures forall i | 0 <= i < |allowed| :: FromStr(Name(allowed[i])) == Some(allowed[i])
  {
    forall i | 0 <= i < |allowed| {
      NameRoundTrip(allowed[i]);
    }
  }

  /** `listen_updates` of this generation: every `getUpdates` call carries
      the names of the allowed update types. */
  method ListenUpdates(pollingTimeout: Option<int>, allowed: seq<UpdateType>, answers: seq<Polling.Answer<Update>>)
    returns (requests: seq<Polling.GetUpdates<seq<string>>>, sent: seq<Update>, offset: Option<int>, failed: bool)
    ensures |requests| == |answers|
    ensures forall k | 0 <= k < |answers| ::
      requests[k] == Polling.GetUpdates(Polling.OffsetAfter(UpdateId, answers[..k]), GET_UPDATES_SIZE, pollingTimeout, AllowedNames(allowed))
    ensures sent == Polling.Sent(answers) && offset == Polling.OffsetAfter(UpdateId, answers) && failed == Polling.FailedAfter(answers)
  {
    requests, sent, offset, failed := Polling.Listen(UpdateId, GET_UPDATES_SIZE, pollingTimeout, AllowedNames(allowed), answers);
  }

  function UpdateId(u: Update): int {
    u.id
  }
}
