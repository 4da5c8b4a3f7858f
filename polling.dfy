// The offset bookkeeping of `listen_updates`, the long-polling loop that
// both dispatchers share in the same shape (telers/src/dispatcher.rs and
// src/dispatcher/dispatcher.rs). The server's answers to `getUpdates` are an
// input sequence, so the endless loop is modelled over finitely many
// answers; sleeping for the backoff and sending into the channel are left
// out (sending is taken to succeed).
module Polling {
  import opened Wrappers

  /** One answer to `getUpdates`: a batch of updates or a failure. */
  datatype Answer<U> = Fetched(updates: seq<U>) | FetchFailed

  /** A `getUpdates` call: the offset, the limit, the long-polling timeout
      and the allowed update types in the generation's own form. */
  datatype GetUpdates<A> = GetUpdates(offset: Option<int>, limit: int, timeout: Option<int>, allowedUpdates: A)

  predicate NonEmpty<U>(a: Answer<U>) {
    a.Fetched? && |a.updates| > 0
  }

  /** The offset once `answers` have come back: a non-empty batch moves it
      one past the id of its last update; an empty batch or a failure
      leaves it. */
  function OffsetAfter<U>(id: U -> int, answers: seq<Answer<U>>): (r: Option<int>)
    ensures r.None? <==> forall k | 0 <= k < |answers| :: !NonEmpty(answers[k])
    decreases |answers|
  {
    if |answers| == 0 then None
    else
      var a := answers[|answers| - 1];
      if NonEmpty(a) then Some(id(Last(a.updates)) + 1)
      else
        var front := answers[..|answers| - 1];
        assert forall k | 0 <= k < |front| :: front[k] == answers[k];
        OffsetAfter(id, front)
  }

  /** An offset, once there is one, is one past the last update of the
      latest non-empty batch. */
  lemma {:induction false} OffsetFromLatestBatch<U>(id: U -> int, answers: seq<Answer<U>>)
    ensures OffsetAfter(id, answers).Some? ==> exists k | 0 <= k < |answers| ::
      NonEmpty(answers[k]) && OffsetAfter(id, answers).value == id(Last(answers[k].updates)) + 1
      && forall j | k < j < |answers| :: !NonEmpty(answers[j])
    decreases |answers|
  {
    if |answers| > 0 && !NonEmpty(answers[|answers| - 1]) {
      var front := answers[..|answers| - 1];
      OffsetFromLatestBatch(id, front);
      if OffsetAfter(id, front).Some? {
        var k :| 0 <= k < |front| && NonEmpty(front[k]) && OffsetAfter(id, front).value == id(Last(front[k].updates)) + 1
          && forall j | k < j < |front| :: !NonEmpty(front[j]);
        assert front[k] == answers[k];
      }
    }
  }

  function Last<U>(s: seq<U>): U
    requires |s| > 0
  {
    s[|s| - 1]
  }

  /** The updates passed on to the dispatcher, batch after batch. */
  function Sent<U>(answers: seq<Answer<U>>): (r: seq<U>)
    ensures |r| == 0 <==> forall k | 0 <= k < |answers| :: !NonEmpty(answers[k])
    ensures forall x | x in r :: exists k | 0 <= k < |answers| :: answers[k].Fetched? && x in answers[k].updates
    decreases |answers|
  {
    if |answers| == 0 then []
    else
      var a := answers[|answers| - 1];
      var front := answers[..|answers| - 1];
      assert forall k | 0 <= k < |front| :: front[k] == answers[k];
      Sent(front) + (if a.Fetched? then a.updates else [])
  }

  /** The `failed` flag: set by a failure, cleared (and the backoff reset)
      only by a non-empty batch. */
  function FailedAfter<U>(answers: seq<Answer<U>>): (r: bool)
    ensures r ==> exists k | 0 <= k < |answers| :: answers[k].FetchFailed?
    ensures r ==> !NonEmpty(answers[|answers| - 1])
    decreases |answers|
  {
    if |answers| == 0 then false
    else
      var a := answers[|answers| - 1];
      if a.FetchFailed? then true
      else if NonEmpty(a) then false
      else
        var front := answers[..|answers| - 1];
        assert forall k | 0 <= k < |front| :: front[k] == answers[k];
        FailedAfter(front)
  }

  /** `listen_updates` over the answers the server gives: the request sent
      for each answer, the updates passed on, and the final offset and
      `failed` flag. */
  method Listen<U, A>(id: U -> int, limit: int, timeout: Option<int>, allowed: A, answers: seq<Answer<U>>)
    returns (requests: seq<GetUpdates<A>>, sent: seq<U>, offset: Option<int>, failed: bool)
    ensures |requests| == |answers|
    ensures forall k | 0 <= k < |answers| :: requests[k] == GetUpdates(OffsetAfter(id, answers[..k]), limit, timeout, allowed)
    ensures sent == Sent(answers) && offset == OffsetAfter(id, answers) && failed == FailedAfter(answers)
  {
    var request := GetUpdates(None, limit, timeout, allowed);
    requests, sent, failed := [], [], false;
    for i := 0 to |answers|
      invariant request == GetUpdates(OffsetAfter(id, answers[..i]), limit, timeout, allowed)
      invariant requests == RequestsFor(id, limit, timeout, allowed, answers[..i])
      invariant sent == Sent(answers[..i]) && failed == FailedAfter(answers[..i])
    {
      ListenStep(id, limit, timeout, allowed, answers, i);
      requests := requests + [request];
      match answers[i] {
        case FetchFailed =>
          failed := true;
        case Fetched(updates) =>
          if |updates| == 0 {
            continue;
          }
          request := request.(offset := Some(id(Last(updates)) + 1));
          sent := sent + updates;
          if failed {
            failed := false;
          }
      }
    }
    assert answers[..|answers|] == answers;
    offset := request.offset;
    RequestsForAt(id, limit, timeout, allowed, answers);
  }

  /** The requests sent for `answers`, one per answer, each carrying the
      offset the answers before it leave. */
  function RequestsFor<U, A>(id: U -> int, limit: int, timeout: Option<int>, allowed: A, answers: seq<Answer<U>>)
    : (r: seq<GetUpdates<A>>)
    ensures |r| == |answers|
    decreases |answers|
  {
    if |answers| == 0 then []
    else
      var front := answers[..|answers| - 1];
      RequestsFor(id, limit, timeout, allowed, front) + [GetUpdates(OffsetAfter(id, front), limit, timeout, allowed)]
  }

  lemma {:induction false} RequestsForAt<U, A>(id: U -> int, limit: int, timeout: Option<int>, allowed: A, answers: seq<Answer<U>>)
    ensures forall k | 0 <= k < |answers| ::
      RequestsFor(id, limit, timeout, allowed, answers)[k] == GetUpdates(OffsetAfter(id, answers[..k]), limit, timeout, allowed)
    decreases |answers|
  {
    if |answers| > 0 {
      var front := answers[..|answers| - 1];
      RequestsForAt(id, limit, timeout, allowed, front);
      forall k | 0 <= k < |front|
        ensures front[..k] == answers[..k]
      {
      }
    }
  }

  /** One more answer moves the offset, the updates passed on and the
      `failed` flag as one turn of the loop in `listen_updates` does. */
  lemma ListenStep<U, A>(id: U -> int, limit: int, timeout: Option<int>, allowed: A, answers: seq<Answer<U>>, i: nat)
    requires i < |answers|
    ensures RequestsFor(id, limit, timeout, allowed, answers[..i + 1])
      == RequestsFor(id, limit, timeout, allowed, answers[..i]) + [GetUpdates(OffsetAfter(id, answers[..i]), limit, timeout, allowed)]
    ensures OffsetAfter(id, answers[..i + 1])
      == if NonEmpty(answers[i]) then Some(id(Last(answers[i].updates)) + 1) else OffsetAfter(id, answers[..i])
    ensures Sent(answers[..i + 1]) == Sent(answers[..i]) + (if answers[i].Fetched? then answers[i].updates else [])
    ensures FailedAfter(answers[..i + 1])
      == if answers[i].FetchFailed? then true else if NonEmpty(answers[i]) then false else FailedAfter(answers[..i])
  {
    var p := answers[..i + 1];
    assert p[..i] == answers[..i] && p[i] == answers[i];
  }

  /** The offset is one past the last update passed on, and there is none
      before any update has arrived: each call confirms every update
      received before it. */
  lemma {:induction false} OffsetIsLastSentPlusOne<U>(id: U -> int, answers: seq<Answer<U>>)
    ensures OffsetAfter(id, answers) == if |Sent(answers)| == 0 then None else Some(id(Last(Sent(answers))) + 1)
    decreases |answers|
  {
    if |answers| > 0 {
      OffsetIsLastSentPlusOne(id, answers[..|answers| - 1]);
    }
  }

  /** Some fetch failed at `k` and no non-empty batch has come since. */
  predicate FailedSince<U>(answers: seq<Answer<U>>, k: nat)
    requires k < |answers|
  {
    answers[k].FetchFailed? && forall j | k < j < |answers| :: !NonEmpty(answers[j])
  }

  lemma SinceAndFront<U>(answers: seq<Answer<U>>, k: nat)
    requires k < |answers| - 1
    ensures FailedSince(answers, k) ==> FailedSince(answers[..|answers| - 1], k)
    ensures !NonEmpty(answers[|answers| - 1]) && FailedSince(answers[..|answers| - 1], k) ==> FailedSince(answers, k)
  {
  }

  /** The backoff stays engaged exactly when some fetch failed and no
      non-empty batch has come since. */
  lemma {:induction false} FailedIff<U>(answers: seq<Answer<U>>)
    ensures FailedAfter(answers) <==> exists k | 0 <= k < |answers| :: FailedSince(answers, k)
    decreases |answers|
  {
    if |answers| > 0 {
      var n := |answers| - 1;
      var front := answers[..n];
      FailedIff(front);
      forall k | 0 <= k < n {
        SinceAndFront(answers, k);
      }
      if answers[n].FetchFailed? {
        assert FailedSince(answers, n);
      } else if FailedAfter(front) && !NonEmpty(answers[n]) {
        var k :| 0 <= k < n && FailedSince(front, k);
        assert FailedSince(answers, k);
      }
    }
  }
}
