// What a handler or a middleware tells the dispatcher to do next. The enum
// is declared next to each generation's observers (its declaration is not
// part of this model); all three generations use the same three variants.
module Events {

  datatype EventReturn =
    | Skip    // let the next handler (or the next middleware) try
    | Cancel  // stop and report the event as rejected
    | Finish  // stop and report the event as handled

  /** `EventReturn::default()`: a middleware that has nothing to say lets
      propagation go on normally. */
  const DEFAULT_EVENT_RETURN: EventReturn := Finish
}
