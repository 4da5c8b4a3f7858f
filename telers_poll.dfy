// Poll conversions (telers/src/types/poll.rs): a poll is regular or a quiz;
// the conversions to either, and from an update, fail on any other variant.
module TelersPoll {
  import opened Wrappers
  import opened TelersTypes

  /** `Poll::default()`: a regular poll with empty fields. */
  function DefaultPoll(): (p: Poll)
    ensures p.RegularPoll? && p.regular.question == ""
  {
    RegularPoll(Regular("", ""))
  }

  /** `TryFrom<Poll> for Regular`. */
  function RegularFromPoll(p: Poll): (r: Result<Regular, ConvertToTypeError>)
    ensures r.Ok? <==> p.RegularPoll?
    ensures r.Ok? ==> RegularPoll(r.value) == p
    ensures r.Err? ==> r.error == ConvertToTypeError("Poll", "Regular")
  {
    if p.RegularPoll? then Ok(p.regular) else Err(ConvertToTypeError("Poll", "Regular"))
  }

  /** `TryFrom<Poll> for Quiz`. */
  function QuizFromPoll(p: Poll): (r: Result<Quiz, ConvertToTypeError>)
    ensures r.Ok? <==> p.QuizPoll?
    ensures r.Ok? ==> QuizPoll(r.value) == p
    ensures r.Err? ==> r.error == ConvertToTypeError("Poll", "Quiz")
  {
    if p.QuizPoll? then Ok(p.quiz) else Err(ConvertToTypeError("Poll", "Quiz"))
  }

  /** `TryFrom<Update> for Poll`: the Poll kind only. */
  function PollFromUpdate(u: Update): (r: Result<Poll, ConvertToTypeError>)
    ensures r.Ok? <==> u.kind.PollKind?
    ensures r.Ok? ==> r.value == u.kind.poll
    ensures r.Err? ==> r.error == ConvertToTypeError("Update", "Poll")
  {
    if u.kind.PollKind? then Ok(u.kind.poll) else Err(ConvertToTypeError("Update", "Poll"))
  }

  /** `TryFrom<Update> for Regular`: through the poll. It succeeds exactly
      on a poll update carrying a regular poll, with that poll; a non-poll
      update reports the Update error, a quiz the Poll error. */
  function RegularFromUpdate(u: Update): (r: Result<Regular, ConvertToTypeError>)
    ensures r.Ok? <==> u.kind.PollKind? && u.kind.poll.RegularPoll?
    ensures r.Ok? ==> u.kind.poll == RegularPoll(r.value)
    ensures !u.kind.PollKind? ==> r == Err(ConvertToTypeError("Update", "Poll"))
    ensures u.kind.PollKind? && u.kind.poll.QuizPoll? ==> r == Err(ConvertToTypeError("Poll", "Regular"))
  {
    var p := PollFromUpdate(u);
    if p.Err? then Err(p.error) else RegularFromPoll(p.value)
  }

  /** `TryFrom<Update> for Quiz`, the same way. */
  function QuizFromUpdate(u: Update): (r: Result<Quiz, ConvertToTypeError>)
    ensures r.Ok? <==> u.kind.PollKind? && u.kind.poll.QuizPoll?
    ensures r.Ok? ==> u.kind.poll == QuizPoll(r.value)
    ensures !u.kind.PollKind? ==> r == Err(ConvertToTypeError("Update", "Poll"))
    ensures u.kind.PollKind? && u.kind.poll.RegularPoll? ==> r == Err(ConvertToTypeError("Poll", "Quiz"))
  {
    var p := PollFromUpdate(u);
    if p.Err? then Err(p.error) else QuizFromPoll(p.value)
  }

  lemma ConversionRoundTrip(g: Regular, q: Quiz)
    ensures RegularFromPoll(RegularPoll(g)) == Ok(g)
    ensures QuizFromPoll(QuizPoll(q)) == Ok(q)
    ensures RegularFromPoll(DefaultPoll()).Ok?
  {
  }
}
