// Handler arguments of the newest generation
// (telers/src/extractors/extractor.rs and telers/src/extractors/types.rs):
// an extractor turns what a handler is called with — the bot, the update and
// the context — into one argument, or fails. `Option`, `Result`, `()` and
// tuples of extractors are extractors again.
module TelersExtractors {
  import opened Wrappers
  import opened TelersTypes

  /** What every extractor is given. The bot and the context are type
      parameters; the extractors here only pass them on. */
  datatype Input<B, C> = Input(bot: B, update: Update, context: C)

  // ---------------------------------------------------------------------
  // Combinators

  /** `Option<T>`: the argument when `T` extracts, `None` when it fails;
      never an error. */
  function OptionOf<I, T, E>(x: I -> Result<T, E>, input: I): (r: Result<Option<T>, Infallible>)
    ensures r.Ok?
    ensures r.value.Some? <==> x(input).Ok?
    ensures r.value.Some? ==> r.value.value == x(input).value
  {
    match x(input)
    case Ok(value) => Ok(Some(value))
    case Err(_) => Ok(None)
  }

  /** `Result<T, E>`: `T`'s outcome itself, its error converted by `into`;
      never an error. */
  function ResultOf<I, T, E, F>(x: I -> Result<T, E>, into: E -> F, input: I): (r: Result<Result<T, F>, Infallible>)
    ensures r.Ok?
    ensures r.value.Ok? <==> x(input).Ok?
    ensures r.value.Ok? ==> r.value.value == x(input).value
    ensures r.value.Err? ==> r.value.error == into(x(input).error)
  {
    Ok(match x(input) case Ok(v) => Ok(v) case Err(e) => Err(into(e)))
  }

  /** `()`: always extracts. */
  function UnitOf<I>(input: I): (r: Result<(), Infallible>)
    ensures r.Ok?
  {
    Ok(())
  }

  /** The number of parts that extract before the first that fails, or the
      number of parts when none fails. */
  function FirstFailure<I, V, E>(parts: seq<I -> Result<V, E>>, input: I): (k: nat)
    ensures k <= |parts|
    ensures forall j | 0 <= j < k :: parts[j](input).Ok?
    ensures k < |parts| ==> parts[k](input).Err?
    decreases |parts|
  {
    if |parts| == 0 then 0
    else if parts[0](input).Err? then 0
    else 1 + FirstFailure(parts[1..], input)
  }

  /** Tuples of 1 to 20 extractors (their parts share one value type
      here): the parts are extracted left to right and the first failure,
      converted by `into`, is the tuple's error; otherwise every part's
      value, in order. */
  function Tuple<I, V, E, F>(parts: seq<I -> Result<V, E>>, into: E -> F, input: I): (r: Result<seq<V>, F>)
    requires |parts| <= 20
    ensures r.Ok? <==> forall i | 0 <= i < |parts| :: parts[i](input).Ok?
    ensures r.Ok? ==> |r.value| == |parts| && forall i | 0 <= i < |parts| :: r.value[i] == parts[i](input).value
    ensures r.Err? ==> FirstFailure(parts, input) < |parts| && r.error == into(parts[FirstFailure(parts, input)](input).error)
    decreases |parts|
  {
    if |parts| == 0 then Ok([])
    else
      assert forall i | 1 <= i < |parts| :: parts[1..][i - 1] == parts[i];
      match parts[0](input)
      case Err(e) => Err(into(e))
      case Ok(v) =>
        match Tuple(parts[1..], into, input)
        case Err(e) => Err(e)
        case Ok(vs) => Ok([v] + vs)
  }

  /** Every part wrapped as an `Option` extractor. */
  function Optional<I, V, E>(parts: seq<I -> Result<V, E>>): seq<I -> Result<Option<V>, Infallible>> {
    seq(|parts|, i requires 0 <= i < |parts| => (x: I) => OptionOf(parts[i], x))
  }

  /** A tuple whose every part is an `Option` never fails, and holds `Some`
      exactly at the parts that extract. */
  lemma TupleOfOptionsNeverFails<I, V, E, F>(parts: seq<I -> Result<V, E>>, into: Infallible -> F, input: I)
    requires |parts| <= 20
    ensures var r := Tuple(Optional(parts), into, input);
      r.Ok? && forall i | 0 <= i < |parts| :: (r.value[i].Some? <==> parts[i](input).Ok?)
  {
    var lifted := Optional(parts);
    assert forall i | 0 <= i < |parts| :: lifted[i](input) == OptionOf(parts[i], input);
  }

  // ---------------------------------------------------------------------
  // The extractors of types.rs

  /** `Bot` (and `Arc<Bot>`): the bot the handler was called with. */
  function BotOf<B, C>(input: Input<B, C>): (r: Result<B, Infallible>)
    ensures r.Ok? && r.value == input.bot
  {
    Ok(input.bot)
  }

  /** `Update` (and `Arc<Update>`): the update itself. */
  function UpdateOf<B, C>(input: Input<B, C>): (r: Result<Update, Infallible>)
    ensures r.Ok? && r.value == input.update
  {
    Ok(input.update)
  }

  /** `Arc<Context>`: the shared context. */
  function ContextOf<B, C>(input: Input<B, C>): (r: Result<C, Infallible>)
    ensures r.Ok? && r.value == input.context
  {
    Ok(input.context)
  }

  /** A handler asking for the bot and the context gets the two values it
      was called with, in that order, and its extraction never fails. */
  lemma PassthroughTuple<B, F>(input: Input<B, B>, into: Infallible -> F)
    ensures Tuple([(x: Input<B, B>) => BotOf(x), (x: Input<B, B>) => ContextOf(x)], into, input)
         == Ok([input.bot, input.context])
  {
    var parts := [(x: Input<B, B>) => BotOf(x), (x: Input<B, B>) => ContextOf(x)];
    assert parts[0](input) == Ok(input.bot) && parts[1](input) == Ok(input.context);
    var r := Tuple(parts, into, input);
    assert r.value == [input.bot, input.context];
  }
}
