// Handler arguments in the oldest generation (src/extract/extractor.rs):
// extraction is asynchronous, so each extractor gives a future. The
// `Option` and `Result` futures map the inner future's output once it is
// ready; the tuple future keeps one slot per part, polls every unfinished
// part on each poll, stores the outputs of those that finish, and fails as
// soon as a polled part fails.
module ExtractFutures {
  import opened Wrappers

  /** An extraction future as polling sees it: it is pending for `delay`
      more polls and then ready with `result`. */
  datatype Future<T, E> = Future(delay: nat, result: Result<T, E>)

  /** `Poll`: the output, or not yet. */
  datatype Poll<T> = Pending | Ready(value: T)

  /** One poll of a future: the future afterwards and what the poll gave. */
  function PollFuture<T, E>(f: Future<T, E>): (r: (Future<T, E>, Poll<Result<T, E>>))
    ensures r.1.Ready? <==> f.delay == 0
    ensures r.1.Ready? ==> r.1.value == f.result && r.0 == f
    ensures r.1.Pending? ==> r.0 == Future(f.delay - 1, f.result)
  {
    if f.delay == 0 then (f, Ready(f.result)) else (Future(f.delay - 1, f.result), Pending)
  }

  /** `FromEventAndContextOptFuture::poll`: pending while the inner future
      is, then `Some` of its output or `None` for its error; never an
      error. */
  function PollOption<T, E>(f: Future<T, E>): (r: (Future<T, E>, Poll<Result<Option<T>, Infallible>>))
    ensures r.0 == PollFuture(f).0 && (r.1.Ready? <==> PollFuture(f).1.Ready?)
    ensures r.1.Ready? ==> r.1.value.Ok? && (r.1.value.value.Some? <==> f.result.Ok?)
    ensures r.1.Ready? && f.result.Ok? ==> r.1.value.value.value == f.result.value
  {
    match PollFuture(f)
    case (g, Pending) => (g, Pending)
    case (g, Ready(res)) => (g, Ready(Ok(match res case Ok(t) => Some(t) case Err(_) => None)))
  }

  /** `FromEventAndContextResFuture::poll`: pending while the inner future
      is, then its outcome with the error converted by `into`; never an
      error itself. */
  function PollResult<T, E, F>(f: Future<T, E>, into: E -> F): (r: (Future<T, E>, Poll<Result<Result<T, F>, Infallible>>))
    ensures r.0 == PollFuture(f).0 && (r.1.Ready? <==> PollFuture(f).1.Ready?)
    ensures r.1.Ready? ==> r.1.value.Ok? && (r.1.value.value.Ok? <==> f.result.Ok?)
    ensures r.1.Ready? && f.result.Ok? ==> r.1.value.value.value == f.result.value
    ensures r.1.Ready? && f.result.Err? ==> r.1.value.value.error == into(f.result.error)
  {
    match PollFuture(f)
    case (g, Pending) => (g, Pending)
    case (g, Ready(res)) => (g, Ready(Ok(match res case Ok(t) => Ok(t) case Err(e) => Err(into(e)))))
  }

  /** `()`: a future that is ready at once. */
  function UnitFuture(): (f: Future<(), Infallible>)
    ensures f.delay == 0 && f.result.Ok?
  {
    Future(0, Ok(()))
  }

  // ---------------------------------------------------------------------
  // The tuple future

  /** `ExtractFuture`: a part still running, a part's stored output, or a
      part whose output was handed over. */
  datatype Slot<V, E> = Running(fut: Future<V, E>) | Done(output: V) | Empty

  /** A slot whose future fails on this poll. */
  predicate FailsNow<V, E>(s: Slot<V, E>) {
    s.Running? && s.fut.delay == 0 && s.fut.result.Err?
  }

  /** A slot after it was polled without failing. */
  function Step<V, E>(s: Slot<V, E>): (r: Slot<V, E>)
    requires !FailsNow(s)
    ensures s.Running? && s.fut.delay == 0 ==> r == Done(s.fut.result.value)
    ensures s.Running? && s.fut.delay > 0 ==> r == Running(Future(s.fut.delay - 1, s.fut.result))
    ensures !s.Running? ==> r == s
  {
    match s
    case Running(f) => if f.delay == 0 then Done(f.result.value) else Running(Future(f.delay - 1, f.result))
    case _ => s
  }

  /** The first slot that fails on this poll, or the number of slots. */
  function FirstFailing<V, E>(slots: seq<Slot<V, E>>): (k: nat)
    ensures k <= |slots|
    ensures forall j | 0 <= j < k :: !FailsNow(slots[j])
    ensures k < |slots| ==> FailsNow(slots[k])
    decreases |slots|
  {
    if |slots| == 0 then 0
    else if FailsNow(slots[0]) then 0
    else 1 + FirstFailing(slots[1..])
  }

  lemma {:induction false} FirstFailingIsFirst<V, E>(slots: seq<Slot<V, E>>, i: nat)
    requires i < |slots| && FailsNow(slots[i])
    requires forall j | 0 <= j < i :: !FailsNow(slots[j])
    ensures FirstFailing(slots) == i
    decreases i
  {
    if i > 0 {
      FirstFailingIsFirst(slots[1..], i - 1);
    }
  }

  /** What one poll of the tuple future gives and leaves: the first part
      that fails ends the poll with its error, the parts before it having
      been polled and the rest untouched; otherwise every part is polled,
      and when all are done their outputs are handed over (the slots
      emptied), else the poll is pending. */
  function PollSpec<V, E>(slots: seq<Slot<V, E>>): (Poll<Result<seq<V>, E>>, seq<Slot<V, E>>)
    requires forall i | 0 <= i < |slots| :: !slots[i].Empty?
  {
    var k := FirstFailing(slots);
    if k < |slots| then
      (Ready(Err(slots[k].fut.result.error)), seq(|slots|, j requires 0 <= j < |slots| => if j < k then Step(slots[j]) else slots[j]))
    else
      var stepped := seq(|slots|, j requires 0 <= j < |slots| => Step(slots[j]));
      if forall j | 0 <= j < |stepped| :: stepped[j].Done? then
        (Ready(Ok(seq(|stepped|, j requires 0 <= j < |stepped| => stepped[j].output))), seq(|slots|, _ => Empty))
      else (Pending, stepped)
  }

  /** The future of a tuple of 1 to 12 extractors. */
  class TupleFuture<V, E> {
    var slots: seq<Slot<V, E>>

    /** `extract`: one running slot per part. */
    constructor (parts: seq<Future<V, E>>)
      requires 1 <= |parts| <= 12
      ensures slots == SlotsAt(parts, 0)
    {
      slots := seq(|parts|, i requires 0 <= i < |parts| => Running(parts[i]));
    }

    /** `poll`. A slot emptied by an earlier ready poll panics when polled
        again, so every slot must still hold a part. */
    method Poll() returns (p: Poll<Result<seq<V>, E>>)
      requires forall i | 0 <= i < |slots| :: !slots[i].Empty?
      modifies this
      ensures p == PollSpec(old(slots)).0 && slots == PollSpec(old(slots)).1
    {
      var before := slots;
      var ready := true;
      for i := 0 to |slots|
        invariant |slots| == |before|
        invariant forall j | 0 <= j < i :: !FailsNow(before[j]) && slots[j] == Step(before[j])
        invariant forall j | i <= j < |slots| :: slots[j] == before[j]
        invariant ready <==> forall j | 0 <= j < i :: slots[j].Done?
      {
        match slots[i] {
          case Running(f) =>
            if f.delay == 0 {
              if f.result.Err? {
                FirstFailingIsFirst(before, i);
                assert slots == PollSpec(before).1;
                return Ready(Err(f.result.error));
              }
              slots := slots[i := Done(f.result.value)];
            } else {
              slots := slots[i := Running(Future(f.delay - 1, f.result))];
              ready := false;
            }
          case Done(_) =>
          case Empty =>
        }
      }
      assert FirstFailing(before) == |before|;
      var stepped := seq(|before|, j requires 0 <= j < |before| => Step(before[j]));
      assert slots == stepped;
      if ready {
        p := Ready(Ok(seq(|stepped|, j requires 0 <= j < |stepped| => stepped[j].output)));
        slots := seq(|before|, _ => Empty);
      } else {
        p := Pending;
      }
    }
  }

  // ---------------------------------------------------------------------
  // The outcome over successive polls

  /** A part's slot after `r` polls in which no part failed. */
  function SlotAt<V, E>(f: Future<V, E>, r: nat): Slot<V, E> {
    if r <= f.delay then Running(Future(f.delay - r, f.result))
    else if f.result.Ok? then Done(f.result.value)
    else Empty
  }

  function SlotsAt<V, E>(parts: seq<Future<V, E>>, r: nat): (slots: seq<Slot<V, E>>)
    ensures |slots| == |parts| && forall i | 0 <= i < |parts| :: slots[i] == SlotAt(parts[i], r)
  {
    seq(|parts|, i requires 0 <= i < |parts| => SlotAt(parts[i], r))
  }

  /** No part fails within the first `r` polls. */
  predicate NoFailureBefore<V, E>(parts: seq<Future<V, E>>, r: nat) {
    forall i | 0 <= i < |parts| :: parts[i].result.Err? ==> parts[i].delay >= r
  }

  /** Part `k` is the part that fails first in time, the leftmost of those
      failing on the same poll. */
  predicate IsEarliestFailure<V, E>(parts: seq<Future<V, E>>, k: nat) {
    k < |parts| && parts[k].result.Err?
    && forall i | 0 <= i < |parts| && parts[i].result.Err? ::
         parts[i].delay > parts[k].delay || (parts[i].delay == parts[k].delay && i >= k)
  }

  /** Every poll before a part finishes, with no part failing, is pending
      and moves every part on by one poll. */
  lemma PendingPoll<V, E>(parts: seq<Future<V, E>>, r: nat)
    requires NoFailureBefore(parts, r + 1)
    requires exists i | 0 <= i < |parts| :: parts[i].delay > r
    ensures forall i | 0 <= i < |SlotsAt(parts, r)| :: !SlotsAt(parts, r)[i].Empty?
    ensures PollSpec(SlotsAt(parts, r)) == (Pending, SlotsAt(parts, r + 1))
  {
    var slots := SlotsAt(parts, r);
    assert forall j | 0 <= j < |slots| :: !FailsNow(slots[j]);
    var stepped := seq(|slots|, j requires 0 <= j < |slots| => Step(slots[j]));
    assert stepped == SlotsAt(parts, r + 1);
    var i :| 0 <= i < |parts| && parts[i].delay > r;
    assert !stepped[i].Done?;
  }

  /** On the poll where the earliest failure happens the tuple fails with
      that part's error, whatever the parts after it or still running. */
  lemma FailingPoll<V, E>(parts: seq<Future<V, E>>, k: nat)
    requires IsEarliestFailure(parts, k)
    ensures NoFailureBefore(parts, parts[k].delay)
    ensures forall i | 0 <= i < |SlotsAt(parts, parts[k].delay)| :: !SlotsAt(parts, parts[k].delay)[i].Empty?
    ensures PollSpec(SlotsAt(parts, parts[k].delay)).0 == Ready(Err(parts[k].result.error))
  {
    var slots := SlotsAt(parts, parts[k].delay);
    assert FailsNow(slots[k]);
    FirstFailingIsFirst(slots, k);
  }

  /** When no part fails, the poll on which the slowest part finishes hands
      over every part's value, in order. */
  lemma FinishingPoll<V, E>(parts: seq<Future<V, E>>, r: nat)
    requires NoFailureBefore(parts, r + 1) && forall i | 0 <= i < |parts| :: parts[i].result.Ok?
    requires forall i | 0 <= i < |parts| :: parts[i].delay <= r
    ensures forall i | 0 <= i < |SlotsAt(parts, r)| :: !SlotsAt(parts, r)[i].Empty?
    ensures var p := PollSpec(SlotsAt(parts, r)).0;
      p.Ready? && p.value.Ok? && |p.value.value| == |parts|
      && forall i | 0 <= i < |parts| :: p.value.value[i] == parts[i].result.value
  {
    var slots := SlotsAt(parts, r);
    assert forall j | 0 <= j < |slots| :: !FailsNow(slots[j]);
    var stepped := seq(|slots|, j requires 0 <= j < |slots| => Step(slots[j]));
    assert forall j | 0 <= j < |stepped| :: stepped[j] == Done(parts[j].result.value);
  }
}
