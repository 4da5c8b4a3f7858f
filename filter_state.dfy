// The state filter (src/filters/state.rs): an update passes when the
// conversation's current FSM state is one of the allowed states, is any
// state at all, or is absent, as the filter was made. The state is read
// from the request context.
module StateFilter {
  import opened Wrappers
  import RC = RequestContext
  import FsmContextMiddleware
  import StorageBase

  /** `StateType`: a state equal to the one given, any state, or none. */
  datatype StateType = Equal(state: string) | AnyState | NoState

  datatype State = State(allowedStates: seq<StateType>)

  /** `State::any`. */
  function AllowAny(): (f: State)
    ensures f.allowedStates == [AnyState]
  {
    State([AnyState])
  }

  /** `State::none`. */
  function AllowNone(): (f: State)
    ensures f.allowedStates == [NoState]
  {
    State([NoState])
  }

  /** `State::one`. */
  function One(state: StateType): (f: State)
    ensures f.allowedStates == [state]
  {
    State([state])
  }

  /** What `many` keeps of the given states: all of them when each is an
      `Equal`; otherwise only the first `Any` or `None`, the states before it
      being dropped. */
  function ManyStates(states: seq<StateType>): (r: seq<StateType>)
    ensures |r| > 0 <==> |states| > 0
    ensures (forall i | 0 <= i < |states| :: states[i].Equal?) ==> r == states
    ensures forall k | 0 <= k < |states| && !states[k].Equal? && (forall j | 0 <= j < k :: states[j].Equal?) :: r == [states[k]]
    decreases |states|
  {
    if |states| == 0 then []
    else if !states[0].Equal? then [states[0]]
    else
      var rest := ManyStates(states[1..]);
      assert forall j | 1 <= j < |states| :: states[1..][j - 1] == states[j];
      if |rest| > 0 && !rest[0].Equal? then rest else [states[0]] + rest
  }

  /** `State::many`: the states are pushed in order; an `Any` or `None`
      clears those pushed before it, is pushed alone and ends the loop. */
  method Many(states: seq<StateType>) returns (f: State)
    ensures f.allowedStates == ManyStates(states)
  {
    var allowed: seq<StateType> := [];
    for i := 0 to |states|
      invariant allowed == states[..i] && forall j | 0 <= j < i :: states[j].Equal?
    {
      var state := states[i];
      if !state.Equal? {
        allowed := [];
        allowed := allowed + [state];
        break;
      }
      allowed := allowed + [state];
    }
    if |allowed| == |states| && forall j | 0 <= j < |states| :: states[j].Equal? {
      assert allowed == states;
    }
    f := State(allowed);
  }

  /** The filters `check` can answer for: it reads the first entry, and
      after an `Equal` first entry it treats every entry as an `Equal`. */
  predicate Checkable(f: State) {
    |f.allowedStates| > 0 && (f.allowedStates[0].Equal? ==> forall i | 0 <= i < |f.allowedStates| :: f.allowedStates[i].Equal?)
  }

  /** Every constructor gives a filter `check` can answer for (`many` as
      soon as it is given some state). */
  lemma ConstructorsAreCheckable(state: StateType, states: seq<StateType>)
    ensures Checkable(AllowAny()) && Checkable(AllowNone()) && Checkable(One(state))
    ensures |states| > 0 ==> Checkable(State(ManyStates(states)))
  {
    if |states| > 0 && !(forall i | 0 <= i < |states| :: states[i].Equal?) {
      var k := FirstExclusive(states);
      assert ManyStates(states) == [states[k]];
    }
  }

  /** The position of the first `Any` or `None`, which exists. */
  function FirstExclusive(states: seq<StateType>): (k: nat)
    requires exists i | 0 <= i < |states| :: !states[i].Equal?
    ensures k < |states| && !states[k].Equal? && forall j | 0 <= j < k :: states[j].Equal?
    decreases |states|
  {
    if !states[0].Equal? then 0
    else
      assert exists i | 0 <= i < |states[1..]| :: !states[1..][i].Equal? by {
        var i :| 0 <= i < |states| && !states[i].Equal?;
        assert states[1..][i - 1] == states[i];
      }
      1 + FirstExclusive(states[1..])
  }

  /** `check`: with no state only a `none` filter passes; with a state a
      `none` filter fails, an `any` filter passes, and a list of states
      passes when one of them is that state. */
  function Check(f: State, state: Option<string>): (b: bool)
    requires Checkable(f)
    ensures state.None? ==> (b <==> f.allowedStates[0] == NoState)
    ensures state.Some? && f.allowedStates[0] == NoState ==> !b
    ensures state.Some? && f.allowedStates[0] == AnyState ==> b
    ensures state.Some? && f.allowedStates[0].Equal? ==> (b <==> Equal(state.value) in f.allowedStates)
  {
    match state
    case None => f.allowedStates[0].NoState?
    case Some(s) =>
      if f.allowedStates[0].NoState? then false
      else if f.allowedStates[0].AnyState? then true
      else Equal(s) in f.allowedStates
  }

  /** A `many` filter over plain states passes exactly the states listed,
      and never an absent state. */
  lemma ManyEqualsIsMembership(states: seq<StateType>, state: Option<string>)
    requires |states| > 0 && forall i | 0 <= i < |states| :: states[i].Equal?
    ensures Checkable(State(ManyStates(states)))
    ensures Check(State(ManyStates(states)), state) <==> state.Some? && Equal(state.value) in states
  {
  }

  /** In `many`, the first `Any` or `None` decides alone, whatever came
      before or after it. */
  lemma ManyExclusiveDecides(states: seq<StateType>, state: Option<string>)
    requires exists i | 0 <= i < |states| :: !states[i].Equal?
    ensures Checkable(State(ManyStates(states)))
    ensures Check(State(ManyStates(states)), state) <==> Check(One(states[FirstExclusive(states)]), state)
  {
    var k := FirstExclusive(states);
    assert ManyStates(states) == [states[k]];
  }

  /** A `none` filter passes exactly when there is no state, and an `any`
      filter exactly when there is one. */
  lemma NoneAndAnyAreComplements(state: Option<string>)
    ensures Check(AllowNone(), state) <==> state.None?
    ensures Check(AllowAny(), state) <==> state.Some?
    ensures Check(AllowNone(), state) != Check(AllowAny(), state)
  {
  }

  // ---------------------------------------------------------------------
  // Reading the state from the context

  /** The name under which the filter looks for the state. */
  const FILTER_STATE_KEY: string := "fsm_state"

  /** A value of Rust's `String` type stored in a context. */
  predicate IsStringValue(v: RC.Value) {
    RC.TypeOf(v) == RC.OtherTy("String")
  }

  /** `Filter::check` as written: it reads "fsm_state", which must hold a
      `String` if present (the downcast panics otherwise), and checks
      nothing when it is absent. */
  function CheckContextAsWritten(f: State, entries: map<string, RC.Value>): (b: bool)
    requires Checkable(f)
    requires FILTER_STATE_KEY in entries ==> IsStringValue(entries[FILTER_STATE_KEY])
    ensures FILTER_STATE_KEY !in entries ==> b == Check(f, None)
    ensures FILTER_STATE_KEY in entries ==> b == Check(f, Some(entries[FILTER_STATE_KEY].payload))
  {
    if FILTER_STATE_KEY in entries then Check(f, Some(entries[FILTER_STATE_KEY].payload)) else Check(f, None)
  }

  /** The filter belongs to the generation under `src/filters`, while the only
      FSM-context middleware in this model is the older
      one under `src/dispatcher`, so this pairing crosses generations and the
      mismatch it shows is plausible, not established. That middleware runs
      before the filter and stores an `Option<String>` under "state" but
      never anything under "fsm_state": behind it, the filter as written
      always sees no state, so a filter for a state never passes and a
      `none` filter always does, whatever the stored state. */
  lemma AsWrittenMissesMiddlewareState(f: State, m: FsmContextMiddleware.FsmContext, apply: FsmContextMiddleware.Apply,
                                       botId: int, entries: map<string, RC.Value>,
                                       getState: StorageBase.StorageKey -> Result<Option<string>, string>)
    requires Checkable(f)
    requires FsmContextMiddleware.HasEventEntries(entries) && FILTER_STATE_KEY !in entries
    requires FsmContextMiddleware.CallResult(m, apply, botId, entries, getState).Ok?
    ensures var after := FsmContextMiddleware.CallResult(m, apply, botId, entries, getState).value;
      FILTER_STATE_KEY !in after && CheckContextAsWritten(f, after) == Check(f, None)
  {
    FsmContextMiddleware.CallEntries(m, apply, botId, entries, getState, FILTER_STATE_KEY);
  }

  /** A concrete case: the older generation's middleware has stored the
      state "form" under "state" and the filter is for "form", yet the
      filter as written fails while the corrected one passes. */
  lemma StateKeyCounterexample()
    ensures var entries := map["state" := RC.StateValue(Some("form"))];
      !CheckContextAsWritten(One(Equal("form")), entries) && CheckContext(One(Equal("form")), entries)
  {
  }

  /** `Filter::check` corrected to match the older generation's
      FSM-context middleware, which changes both the key and the type: the
      state is read under "state" rather than "fsm_state", as the
      `Option<String>` stored there rather than a `String` (with only the
      key changed, the `String` downcast would panic on that value); an
      absent entry is no state. */
  function CheckContext(f: State, entries: map<string, RC.Value>): (b: bool)
    requires Checkable(f)
    requires "state" in entries ==> entries["state"].StateValue?
    ensures "state" !in entries ==> b == Check(f, None)
    ensures "state" in entries ==> b == Check(f, entries["state"].state)
  {
    if "state" in entries then Check(f, entries["state"].state) else Check(f, None)
  }

  /** Behind the older generation's FSM-context middleware, as that
      middleware is written, the corrected filter checks the state the
      storage holds under the key the middleware resolved for the event. */
  lemma CorrectedSeesMiddlewareState(f: State, m: FsmContextMiddleware.FsmContext, apply: FsmContextMiddleware.Apply,
                                     botId: int, entries: map<string, RC.Value>,
                                     getState: StorageBase.StorageKey -> Result<Option<string>, string>)
    requires Checkable(f)
    requires FsmContextMiddleware.HasEventEntries(entries) && entries["event_user"].SrcUserValue?
    requires FsmContextMiddleware.CallResult(m, apply, botId, entries, getState).Ok?
    ensures var after := FsmContextMiddleware.CallResult(m, apply, botId, entries, getState).value;
      var key := FsmContextMiddleware.ResolveEventContextAsWritten(m, apply, botId, entries).value;
      "state" in after && after["state"].StateValue?
      && CheckContext(f, after) == Check(f, getState(key).value)
  {
    FsmContextMiddleware.CallEntries(m, apply, botId, entries, getState, "other");
  }
}
