/**
 * The `useSurveys` hook: the signed-in user's surveys with a load status. Its
 * effect runs when the user changes (after the previous run's cleanup) and on
 * unmount only the cleanup runs. A run with a user starts one query; when the
 * query answers, the result is stored only if that run's `isMounted` flag is
 * still set. The query's answer is a parameter; each handler is one atomic step.
 */
module SurveysHook {
  import opened Js

  /** `'idle' | 'loading' | 'success' | 'error'` */
  datatype Status = Idle | Loading | Success | Error

  /** A row of `surveys` as the hook selects it. */
  datatype SurveyRow = SurveyRow(
    id: string, ownerId: Option<string>, title: string, description: Option<string>,
    publicSlug: Option<string>, isActive: bool, createdAt: string)

  /** The `{ data, error }` of the query: its error message, or its (possibly null) rows. */
  datatype QueryResult = QueryError(message: string) | QueryData(rows: Option<seq<SurveyRow>>)

  /**
   * What can happen to the hook: the effect runs for a (new) user, after the
   * previous run's cleanup; the component unmounts, which runs the cleanup; the
   * query of run number `load` answers.
   */
  datatype Event = EffectRun(user: Option<string>) | Unmounted | Answered(load: nat, result: QueryResult)

  /**
   * The hook's state. `inFlight` is the run whose query has not answered yet and
   * whose `isMounted` is still true (at most one: a cleanup clears the flag of the
   * run it belongs to); `started` is the number of runs that started a query,
   * which numbers them 0, 1, ...
   */
  datatype HookState = HookState(status: Status, data: seq<SurveyRow>, error: Option<string>,
                                 inFlight: Option<nat>, started: nat)

  /** `useState('idle')`, `useState([])`, `useState(null)`, before any run. */
  const Initial := HookState(Idle, [], None, None, 0)

  /**
   * The state after `e`. Only an effect run for a user starts a query, with the
   * next run number; a valid state stays valid; an unmount only forgets the
   * awaited run; an answer for a run that is not awaited changes nothing.
   */
  function Step(s: HookState, e: Event): (t: HookState)
    ensures Valid(s) ==> Valid(t)
    ensures t.started == s.started + (if e.EffectRun? && e.user.Some? then 1 else 0)
    ensures t.inFlight.Some? && t.inFlight != s.inFlight ==>
      e.EffectRun? && e.user.Some? && t.inFlight == Some(s.started)
    ensures e.Unmounted? ==> t.inFlight == None && t.status == s.status && t.data == s.data && t.error == s.error
    ensures e.Answered? && s.inFlight != Some(e.load) ==> t == s
  {
    match e
    case EffectRun(user) =>
      if user.None? then s.(inFlight := None)
      else HookState(Loading, s.data, None, Some(s.started), s.started + 1)
    case Unmounted => s.(inFlight := None)
    case Answered(load, result) =>
      if s.inFlight != Some(load) then s
      else
        match result
        case QueryError(m) => s.(status := Error, error := Some(m), inFlight := None)
        case QueryData(rows) => s.(status := Success, data := rows.OrElse([]), inFlight := None)
  }

  /** The state after the events `es`, in order. */
  function Run(s: HookState, es: seq<Event>): HookState
    decreases |es|
  {
    if es == [] then s else Run(Step(s, es[0]), es[1..])
  }

  /**
   * What every reachable state satisfies: the status is `'error'` exactly when an
   * error message is stored; `'idle'` only before the first query, with no data;
   * while a query is awaited the status is `'loading'` and the error cleared.
   */
  predicate Valid(s: HookState) {
    (s.status == Error <==> s.error.Some?)
    && (s.status == Idle ==> s.data == [] && s.error == None && s.started == 0)
    && (s.inFlight.Some? ==> s.inFlight.value < s.started && s.status == Loading && s.error == None)
  }

  /** Every step keeps the state valid. */
  lemma StepValid(s: HookState, e: Event)
    requires Valid(s)
    ensures Valid(Step(s, e))
  {
  }

  /** Every sequence of events from the initial state keeps the state valid. */
  lemma {:induction false} RunValid(s: HookState, es: seq<Event>)
    requires Valid(s)
    ensures Valid(Run(s, es))
    decreases |es|
  {
    if es != [] {
      StepValid(s, es[0]);
      RunValid(Step(s, es[0]), es[1..]);
    }
  }

  /** No user, no event runs a query. */
  predicate NoUser(es: seq<Event>) {
    forall i :: 0 <= i < |es| ==> !(es[i].EffectRun? && es[i].user.Some?)
  }

  /**
   * While nobody is signed in no query is started, so whatever else happens
   * (unmounts, stray answers) the status stays `'idle'`, the data `[]` and the
   * error null.
   */
  lemma {:induction false} NoUserStaysIdle(es: seq<Event>)
    requires NoUser(es)
    ensures var t := Run(Initial, es); t.status == Idle && t.data == [] && t.error == None
    decreases |es|
  {
    if es != [] {
      assert Step(Initial, es[0]) == Initial;
      assert NoUser(es[1..]) by {
        forall i | 0 <= i < |es[1..]| ensures !(es[1..][i].EffectRun? && es[1..][i].user.Some?) {
          assert es[1..][i] == es[i + 1];
        }
      }
      NoUserStaysIdle(es[1..]);
    }
  }

  /**
   * A run for a user followed by the answer of its own query settles the hook:
   * an error stores its message with status `'error'` and keeps the old data;
   * rows (or `[]` for null) are stored with status `'success'` and no error.
   */
  lemma LoadSettles(s: HookState, user: string, result: QueryResult)
    requires Valid(s)
    ensures var t := Step(Step(s, EffectRun(Some(user))), Answered(s.started, result));
      t.status != Loading && t.inFlight == None
      && (result.QueryError? ==> t.status == Error && t.error == Some(result.message) && t.data == s.data)
      && (result.QueryData? ==> t.status == Success && t.error == None && t.data == result.rows.OrElse([]))
  {
  }

  /**
   * The answer of an earlier run that arrives after the component unmounted, or
   * after the effect ran again for another user, changes nothing.
   */
  lemma StaleAnswerIgnored(s: HookState, e: Event, load: nat, result: QueryResult)
    requires Valid(s) && load < s.started
    requires e.Unmounted? || e.EffectRun?
    ensures Step(Step(s, e), Answered(load, result)) == Step(s, e)
  {
  }

  /** The hook's state as a class whose handlers the component's callbacks call. */
  class SurveysHookState {
    var status: Status
    var data: seq<SurveyRow>
    var error: Option<string>
    var inFlight: Option<nat>
    var started: nat

    function State(): HookState
      reads this
    {
      HookState(status, data, error, inFlight, started)
    }

    constructor()
      ensures State() == Initial
    {
      status := Idle;
      data := [];
      error := None;
      inFlight := None;
      started := 0;
    }

    /**
     * The effect for `user`, after the previous run's cleanup. Without a user it
     * returns at once and starts nothing; with one it sets `'loading'`, clears the
     * error and starts query number `started`, which it returns.
     */
    method RunEffect(user: Option<string>) returns (load: Option<nat>)
      requires Valid(State())
      modifies this
      ensures Valid(State()) && State() == Step(old(State()), EffectRun(user))
      ensures user.None? ==> load == None && status == old(status) && data == old(data) && error == old(error)
      ensures user.Some? ==> load == Some(old(started)) && status == Loading && error == None && data == old(data)
    {
      inFlight := None;
      if user.None? {
        load := None;
        return;
      }
      load := Some(started);
      inFlight := load;
      started := started + 1;
      status := Loading;
      error := None;
    }

    /** The cleanup on unmount: `isMounted = false` for the current run. */
    method Unmount()
      requires Valid(State())
      modifies this
      ensures Valid(State()) && State() == Step(old(State()), Unmounted)
      ensures status == old(status) && data == old(data) && error == old(error) && inFlight == None
    {
      inFlight := None;
    }

    /**
     * The query of run `load` answers with `result`. If that run is no longer
     * mounted nothing changes; otherwise an error sets the message and `'error'`
     * and keeps the data, and rows set the data (`[]` for null) and `'success'`.
     */
    method Answer(load: nat, result: QueryResult)
      requires Valid(State())
      modifies this
      ensures Valid(State()) && State() == Step(old(State()), Answered(load, result))
      ensures old(inFlight) != Some(load) ==> State() == old(State())
      ensures old(inFlight) == Some(load) && result.QueryError? ==>
        status == Error && error == Some(result.message) && data == old(data)
      ensures old(inFlight) == Some(load) && result.QueryData? ==>
        status == Success && data == result.rows.OrElse([]) && error == None
    {
      if inFlight != Some(load) {
        return;
      }
      inFlight := None;
      match result {
        case QueryError(m) =>
          error := Some(m);
          status := Error;
        case QueryData(rows) =>
          data := rows.OrElse([]);
          status := Success;
      }
    }
  }
}
