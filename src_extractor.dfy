// The argument extractors of the middle generation (src/extractors/types.rs):
// the bot, the update and the context are passed through and never fail;
// an event payload is the update converted by that payload type's
// `TryFrom<Update>`, which fails on an update of another kind. Only
// `Message`'s conversion is part of this model; for the other payload
// types the conversion is a parameter.
module SrcExtractors {
  import opened Wrappers
  import opened SrcTypes
  import SrcMessage

  /** What every extractor is given. */
  datatype Input<B, C> = Input(bot: B, update: Update, context: C)

  /** `Bot` (and `Arc<Bot>`). */
  function BotOf<B, C>(input: Input<B, C>): (r: Result<B, Infallible>)
    ensures r.Ok? && r.value == input.bot
  {
    Ok(input.bot)
  }

  /** `Update` (and `Arc<Update>`). */
  function UpdateOf<B, C>(input: Input<B, C>): (r: Result<Update, Infallible>)
    ensures r.Ok? && r.value == input.update
  {
    Ok(input.update)
  }

  /** `Arc<Context>`. */
  function ContextOf<B, C>(input: Input<B, C>): (r: Result<C, Infallible>)
    ensures r.Ok? && r.value == input.context
  {
    Ok(input.context)
  }

  /** A payload extractor (`CallbackQuery`, `ChosenInlineResult`, `Poll`,
      …): the payload type's conversion of the update; the bot and the
      context play no part. */
  function PayloadOf<B, C, T>(convert: Update -> Result<T, ConvertUpdateToTypeError>, input: Input<B, C>): (r: Result<T, ConvertUpdateToTypeError>)
    ensures r == convert(input.update)
  {
    convert(input.update)
  }

  /** `Message`: the first of the message, the edited message, the channel
      post and the edited channel post; an update with none of them is
      refused with the error naming `Message`. */
  function MessageOf<B, C>(input: Input<B, C>): (r: Result<Message, ConvertUpdateToTypeError>)
    ensures r.Err? <==> input.update.message.None? && input.update.editedMessage.None?
                        && input.update.channelPost.None? && input.update.editedChannelPost.None?
    ensures r.Err? ==> r.error == ConvertUpdateToTypeError("Message")
    ensures input.update.message.Some? ==> r == Ok(input.update.message.value)
  {
    SrcMessage.FromUpdateCases(input.update);
    PayloadOf(SrcMessage.FromUpdate, input)
  }

  /** On an update that carries no event, the passthrough extractors still
      succeed and the message extractor fails, whatever the bot and the
      context. */
  lemma EmptyUpdateExample<B, C>(bot: B, context: C, id: int)
    ensures var input := Input(bot, EmptyUpdate(id), context);
      BotOf(input).Ok? && UpdateOf(input).Ok? && ContextOf(input).Ok?
      && MessageOf(input) == Err(ConvertUpdateToTypeError("Message"))
  {
  }
}
