/**
 * The survey chart's `loadData`: three queries in sequence (questions, responses,
 * answers), each of which can fail, and the three ways of building the charts
 * (no questions, no responses yet, counted answers). The queries' results are
 * parameters; what the component then stores and shows is the model.
 */
module SurveyChart {
  import opened Js
  import opened Tabulation

  /** The `{ data, error }` of one query; a non-null error is rethrown by `if (error) throw error`. */
  datatype Fetch<T> = FetchFailed(err: Thrown) | Fetched(rows: Option<seq<T>>)

  /** What one run of `loadData` produces: charts to store, or an error message. */
  datatype LoadResult = Charts(charts: seq<Chart>) | Failure(message: string)

  /** What the component renders. */
  datatype ChartView = LoadingText | ErrorText(message: string) | NoQuestionsText | ChartList(charts: seq<Chart>)

  /** The message of the catch clause when the thrown value is not an `Error`. */
  const LoadFallback := "Error cargando datos"

  /** `!rows || rows.length === 0` */
  predicate NoRows<T>(rows: Option<seq<T>>) {
    rows.None? || rows.value == []
  }

  /** The zero-responses path: every question with one zero bar per declared label. */
  function ZeroCharts(questions: seq<Question>): (r: seq<Chart>)
    ensures |r| == |questions|
    ensures forall i :: 0 <= i < |r| ==> r[i] == Chart(questions[i].text, ZeroBars(questions[i]))
  {
    seq(|questions|, i requires 0 <= i < |questions| => Chart(questions[i].text, ZeroBars(questions[i])))
  }

  /**
   * The result of `loadData` for the given query results. A failed query ends the
   * run with its message; a question list that is null or empty ends it with no
   * charts before the responses are asked for; a response list that is null or
   * empty gives the zero charts before the answers are asked for; otherwise every
   * question is tabulated against the answers (`answers || []`).
   */
  function LoadOutcome(questions: Fetch<Question>, responses: Fetch<string>, answers: Fetch<Answer>): (r: LoadResult)
    ensures r.Failure? <==>
      questions.FetchFailed?
      || (!NoRows(questions.rows) && (responses.FetchFailed? || (!NoRows(responses.rows) && answers.FetchFailed?)))
    ensures r.Charts? && questions.Fetched? ==> |r.charts| == |questions.rows.OrElse([])|
  {
    match questions
    case FetchFailed(e) => Failure(MessageOr(e, LoadFallback))
    case Fetched(qs) =>
      if NoRows(qs) then Charts([])
      else
        match responses
        case FetchFailed(e) => Failure(MessageOr(e, LoadFallback))
        case Fetched(rs) =>
          if NoRows(rs) then Charts(ZeroCharts(qs.value))
          else
            match answers
            case FetchFailed(e) => Failure(MessageOr(e, LoadFallback))
            case Fetched(ans) => Charts(ChartsOf(qs.value, ans.OrElse([])))
  }

  /** The render precedence: loading text, then a (truthy) error, then the empty notice, then the charts. */
  function Screen(loading: bool, error: Option<string>, chartData: seq<Chart>): (v: ChartView)
    ensures loading <==> v == LoadingText
    ensures v.ErrorText? <==> !loading && Truthy(error)
    ensures v == NoQuestionsText <==> !loading && !Truthy(error) && chartData == []
    ensures v.ChartList? ==> v.charts == chartData
  {
    if loading then LoadingText
    else if Truthy(error) then ErrorText(error.value)
    else if chartData == [] then NoQuestionsText
    else ChartList(chartData)
  }

  /**
   * Without questions the result is the empty chart list, whatever the responses
   * and answers queries would have returned: neither is consulted.
   */
  lemma NoQuestionsNoCharts(qs: Option<seq<Question>>, r1: Fetch<string>, a1: Fetch<Answer>, r2: Fetch<string>, a2: Fetch<Answer>)
    requires NoRows(qs)
    ensures LoadOutcome(Fetched(qs), r1, a1) == LoadOutcome(Fetched(qs), r2, a2) == Charts([])
  {
  }

  /**
   * A successful load has one chart per fetched question, in the fetched order,
   * titled with that question's text; its bars are the zero bars when there are no
   * responses and the tabulation of the answers otherwise.
   */
  lemma OneChartPerQuestion(questions: Fetch<Question>, responses: Fetch<string>, answers: Fetch<Answer>)
    requires LoadOutcome(questions, responses, answers).Charts?
    ensures var c := LoadOutcome(questions, responses, answers).charts;
      var qs := questions.rows.OrElse([]);
      |c| == |qs|
      && (forall i :: 0 <= i < |c| ==> c[i].question == qs[i].text)
      && (responses.Fetched? && NoRows(responses.rows) ==>
            forall i :: 0 <= i < |c| ==> c[i].data == ZeroBars(qs[i]))
      && (responses.Fetched? && !NoRows(responses.rows) && answers.Fetched? ==>
            forall i :: 0 <= i < |c| ==> c[i].data == Tabulate(qs[i], answers.rows.OrElse([])))
  {
    var qs := questions.rows.OrElse([]);
    var c := LoadOutcome(questions, responses, answers).charts;
    if responses.Fetched? && !NoRows(responses.rows) && answers.Fetched? && qs != [] {
      forall i | 0 <= i < |c| ensures c[i].data == Tabulate(qs[i], answers.rows.OrElse([])) {
        ChartsOfAt(qs, answers.rows.OrElse([]), i);
      }
    }
  }

  /** A null answer list (`answers?.filter(...) || []`) counts like an empty one. */
  lemma NullAnswersCountNothing(questions: Fetch<Question>, responses: Fetch<string>)
    ensures LoadOutcome(questions, responses, Fetched(None)) == LoadOutcome(questions, responses, Fetched(Some([])))
  {
  }

  /** A failed run reports the message of the first query that failed, or the fallback. */
  lemma FailureMessage(questions: Fetch<Question>, responses: Fetch<string>, answers: Fetch<Answer>)
    requires LoadOutcome(questions, responses, answers).Failure?
    ensures var m := LoadOutcome(questions, responses, answers).message;
      (questions.FetchFailed? && m == MessageOr(questions.err, LoadFallback))
      || (questions.Fetched? && responses.FetchFailed? && m == MessageOr(responses.err, LoadFallback))
      || (questions.Fetched? && responses.Fetched? && answers.FetchFailed? && m == MessageOr(answers.err, LoadFallback))
  {
  }

  /**
   * After a successful load the component shows the empty notice exactly when the
   * question query returned no questions, and the charts otherwise.
   */
  lemma LoadedScreen(questions: Fetch<Question>, responses: Fetch<string>, answers: Fetch<Answer>)
    requires LoadOutcome(questions, responses, answers).Charts?
    ensures var c := LoadOutcome(questions, responses, answers).charts;
      (Screen(false, None, c) == NoQuestionsText <==> questions.Fetched? && NoRows(questions.rows))
      && (!NoRows(questions.rows) ==> Screen(false, None, c) == ChartList(c))
  {
    OneChartPerQuestion(questions, responses, answers);
  }

  /** The state of the `SurveyChart` component. */
  class SurveyChartState {
    var chartData: seq<Chart>
    var loading: bool
    var error: Option<string>

    /** `useState([])`, `useState(true)`, `useState(null)` */
    constructor()
      ensures chartData == [] && loading && error == None
    {
      chartData := [];
      loading := true;
      error := None;
    }

    /** What the component renders in its current state. */
    function View(): ChartView
      reads this
    {
      Screen(loading, error, chartData)
    }

    /**
     * One run of `loadData` with the given query results: loading is set and the
     * error cleared at the start, the charts are stored on success and kept on
     * failure, and loading is off at the end.
     */
    method LoadData(questions: Fetch<Question>, responses: Fetch<string>, answers: Fetch<Answer>)
      modifies this
      ensures !loading
      ensures LoadOutcome(questions, responses, answers).Charts? ==>
        chartData == LoadOutcome(questions, responses, answers).charts && error == None
      ensures LoadOutcome(questions, responses, answers).Failure? ==>
        chartData == old(chartData) && error == Some(LoadOutcome(questions, responses, answers).message)
    {
      loading := true;
      error := None;
      match questions {
        case FetchFailed(e) =>
          error := Some(MessageOr(e, LoadFallback));
        case Fetched(qs) =>
          if NoRows(qs) {
            chartData := [];
          } else {
            match responses {
              case FetchFailed(e) =>
                error := Some(MessageOr(e, LoadFallback));
              case Fetched(rs) =>
                if NoRows(rs) {
                  chartData := ZeroCharts(qs.value);
                } else {
                  match answers {
                    case FetchFailed(e) =>
                      error := Some(MessageOr(e, LoadFallback));
                    case Fetched(ans) =>
                      var processed := ProcessQuestions(qs.value, ans.OrElse([]));
                      chartData := processed;
                  }
                }
            }
          }
      }
      loading := false;
    }
  }
}
