/**
 * The `generalData` Redux reducer of the front end: a `data` payload that a
 * load action replaces, and a counter of API fetches in flight that the add
 * and remove actions move by one. Each case builds a new state value; the
 * input state is a value and so is never changed.
 */
module GeneralDataReducer {
  import opened Wrappers

  datatype HistoryEntry = HistoryEntry(period: string, value: int)

  /** One metric of the general data: this month's value and the monthly history. */
  datatype MetricSeries = MetricSeries(currentMonth: int, history: seq<HistoryEntry>)

  /** The `data` payload: metric name to metric series. */
  type Payload = map<string, MetricSeries>

  datatype State = State(data: Payload, activeApiFetches: int)

  /** The three action types the reducer handles. */
  const HANDLED_TYPES: set<string> := {"LOAD_GENERAL_DATA", "ADD_ACTIVE_API_FETCH", "REMOVE_ACTIVE_API_FETCH"}

  /** An action type the reducer does not handle. */
  type UnhandledType = t: string | t !in HANDLED_TYPES witness ""

  /** The three action types the reducer handles, and any other. */
  datatype Action =
    | LoadGeneralData(generalData: Payload)
    | AddActiveApiFetch
    | RemoveActiveApiFetch
    | OtherAction(actionType: UnhandledType)

  /** The history placeholder periods of the initial state, oldest first. */
  const INITIAL_PERIODS: seq<string> :=
    ["January, 2018", "February, 2018", "March, 2018", "April, 2018", "May, 2018", "June, 2018"]

  /** The metric names of the initial state; the misspelt "total_site_coures" is the source's key. */
  const INITIAL_METRICS: seq<string> :=
    ["total_site_users", "total_course_completions", "total_course_enrollments",
     "total_site_coures", "monthly_active_users"]

  function ZeroSeries(): MetricSeries {
    MetricSeries(0, seq(|INITIAL_PERIODS|, i requires 0 <= i < |INITIAL_PERIODS| => HistoryEntry(INITIAL_PERIODS[i], 0)))
  }

  /** `initialState`. */
  function InitialState(): State {
    State(map k | k in INITIAL_METRICS :: ZeroSeries(), 0)
  }

  /** `generalData(state = initialState, action)`; `None` is an undefined state. */
  function GeneralData(state: Option<State>, action: Action): State {
    var s := match state case Some(st) => st case None => InitialState();
    match action
    case LoadGeneralData(payload) => State(payload, s.activeApiFetches)
    case AddActiveApiFetch => State(s.data, s.activeApiFetches + 1)
    case RemoveActiveApiFetch => State(s.data, s.activeApiFetches - 1)
    case OtherAction(_) => s
  }

  /** The state after dispatching `actions` in order, starting from `s`. */
  function Dispatch(s: State, actions: seq<Action>): State
    decreases |actions|
  {
    if actions == [] then s else Dispatch(GeneralData(Some(s), actions[0]), actions[1..])
  }

  // ---------------------------------------------------------------------------
  // Single transitions
  // ---------------------------------------------------------------------------

  /** A load sets `data` to the payload and keeps the fetch counter. */
  lemma LoadReplacesData(s: State, payload: Payload)
    ensures GeneralData(Some(s), LoadGeneralData(payload)).data == payload
    ensures GeneralData(Some(s), LoadGeneralData(payload)).activeApiFetches == s.activeApiFetches
  {
  }

  /** Adding a fetch raises the counter by exactly one and keeps `data`. */
  lemma AddIncrementsFetches(s: State)
    ensures GeneralData(Some(s), AddActiveApiFetch).activeApiFetches == s.activeApiFetches + 1
    ensures GeneralData(Some(s), AddActiveApiFetch).data == s.data
  {
  }

  /** Removing a fetch lowers the counter by exactly one and keeps `data`; there is no floor at zero. */
  lemma RemoveDecrementsFetches(s: State)
    ensures GeneralData(Some(s), RemoveActiveApiFetch).activeApiFetches == s.activeApiFetches - 1
    ensures GeneralData(Some(s), RemoveActiveApiFetch).data == s.data
    ensures s.activeApiFetches == 0 ==> GeneralData(Some(s), RemoveActiveApiFetch).activeApiFetches < 0
  {
  }

  /** Adding then removing a fetch, in either order, gives back the original state. */
  lemma AddThenRemoveIsIdentity(s: State)
    ensures GeneralData(Some(GeneralData(Some(s), AddActiveApiFetch)), RemoveActiveApiFetch) == s
    ensures GeneralData(Some(GeneralData(Some(s), RemoveActiveApiFetch)), AddActiveApiFetch) == s
  {
  }

  /** Any other action returns the state unchanged. */
  lemma OtherActionIsIdentity(s: State, t: UnhandledType)
    ensures GeneralData(Some(s), OtherAction(t)) == s
  {
  }

  /** An undefined state is treated as the initial state. */
  lemma UndefinedStateIsInitial(action: Action)
    ensures GeneralData(None, action) == GeneralData(Some(InitialState()), action)
  {
  }

  /** The initial state: no fetches in flight, and five metrics each at zero with six zero history entries. */
  lemma InitialStateShape()
    ensures InitialState().activeApiFetches == 0
    ensures |InitialState().data| == 5
    ensures forall k :: k in InitialState().data ==>
      InitialState().data[k].currentMonth == 0 &&
      |InitialState().data[k].history| == 6 &&
      forall i :: 0 <= i < 6 ==> InitialState().data[k].history[i].value == 0
  {
    var keys := set k | k in INITIAL_METRICS;
    assert keys == {"total_site_users", "total_course_completions", "total_course_enrollments",
                    "total_site_coures", "monthly_active_users"};
    assert InitialState().data.Keys == keys;
  }

  // ---------------------------------------------------------------------------
  // Sequences of actions
  // ---------------------------------------------------------------------------

  function CountAdds(actions: seq<Action>): nat {
    if actions == [] then 0 else (if actions[0].AddActiveApiFetch? then 1 else 0) + CountAdds(actions[1..])
  }

  function CountRemoves(actions: seq<Action>): nat {
    if actions == [] then 0 else (if actions[0].RemoveActiveApiFetch? then 1 else 0) + CountRemoves(actions[1..])
  }

  /** The payload of the last load in `actions`, or `current` when there is none. */
  function LastPayload(current: Payload, actions: seq<Action>): Payload
    decreases |actions|
  {
    if actions == [] then current
    else LastPayload(if actions[0].LoadGeneralData? then actions[0].generalData else current, actions[1..])
  }

  /** After any sequence of actions the counter has moved by the adds minus the removes. */
  lemma {:induction false} DispatchCountsFetches(s: State, actions: seq<Action>)
    ensures Dispatch(s, actions).activeApiFetches == s.activeApiFetches + CountAdds(actions) - CountRemoves(actions)
    decreases |actions|
  {
    if actions != [] {
      DispatchCountsFetches(GeneralData(Some(s), actions[0]), actions[1..]);
    }
  }

  /** After any sequence of actions `data` is the payload of the last load, or unchanged when there was none. */
  lemma {:induction false} DispatchKeepsLastPayload(s: State, actions: seq<Action>)
    ensures Dispatch(s, actions).data == LastPayload(s.data, actions)
    decreases |actions|
  {
    if actions != [] {
      DispatchKeepsLastPayload(GeneralData(Some(s), actions[0]), actions[1..]);
    }
  }

  /** A sequence with as many removes as adds and no load leaves the state as it was. */
  lemma {:induction false} BalancedFetchesRestoreState(s: State, actions: seq<Action>)
    requires CountAdds(actions) == CountRemoves(actions)
    requires forall i :: 0 <= i < |actions| ==> !actions[i].LoadGeneralData?
    ensures Dispatch(s, actions) == s
  {
    DispatchCountsFetches(s, actions);
    DispatchKeepsLastPayload(s, actions);
    NoLoadKeepsPayload(s.data, actions);
  }

  lemma {:induction false} NoLoadKeepsPayload(current: Payload, actions: seq<Action>)
    requires forall i :: 0 <= i < |actions| ==> !actions[i].LoadGeneralData?
    ensures LastPayload(current, actions) == current
    decreases |actions|
  {
    if actions != [] {
      assert !actions[0].LoadGeneralData?;
      NoLoadKeepsPayload(current, actions[1..]);
    }
  }

  /** Dispatching two sequences one after the other is dispatching their concatenation. */
  lemma {:induction false} DispatchAppend(s: State, a: seq<Action>, b: seq<Action>)
    ensures Dispatch(s, a + b) == Dispatch(Dispatch(s, a), b)
    decreases |a|
  {
    if a == [] {
      assert a + b == b;
    } else {
      assert (a + b)[0] == a[0];
      assert (a + b)[1..] == a[1..] + b;
      DispatchAppend(GeneralData(Some(s), a[0]), a[1..], b);
    }
  }

  /** The last load wins: after a load of `p` followed by actions that load nothing, `data` is `p`. */
  lemma LastLoadWins(s: State, pre: seq<Action>, p: Payload, post: seq<Action>)
    requires forall i :: 0 <= i < |post| ==> !post[i].LoadGeneralData?
    ensures Dispatch(s, pre + [LoadGeneralData(p)] + post).data == p
  {
    DispatchAppend(s, pre + [LoadGeneralData(p)], post);
    DispatchAppend(s, pre, [LoadGeneralData(p)]);
    var t := Dispatch(Dispatch(s, pre), [LoadGeneralData(p)]);
    assert t.data == p;
    DispatchKeepsLastPayload(t, post);
    NoLoadKeepsPayload(t.data, post);
  }
}
