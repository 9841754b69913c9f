/**
 * The page on which a signed-in respondent answers a survey: loading the active
 * survey and its questions, the map of answers typed or chosen so far, the
 * submission (one response row, then one answer row per question) and what the
 * page shows. Query and insert results are parameters of the handlers.
 */
module PublicSurvey {
  import opened Js
  import Tabulation

  /** A survey as the page loads it (`id, title, description`). */
  datatype SurveyInfo = SurveyInfo(id: string, title: string, description: Option<string>)

  /** A row of `questions` as fetched; `options` may be null or not an array. */
  datatype QuestionRow = QuestionRow(id: string, text: string, qtype: string, options: Tabulation.Options)

  /** A question as the page keeps it: `options` is always an array. */
  datatype PageQuestion = PageQuestion(id: string, text: string, qtype: string, options: seq<string>)

  /** The result of the question query: its error message, or its (possibly null) rows. */
  datatype QuestionsFetch = QuestionsFailed(message: string) | QuestionsFetched(rows: Option<seq<QuestionRow>>)

  /** The result of inserting the response row: the thrown error, or the new row's id. */
  datatype ResponseInsert = ResponseFailed(err: Thrown) | ResponseInserted(id: string)

  /** One element of the `rows` passed to the `response_answers` insert. */
  datatype AnswerRow = AnswerRow(responseId: string, questionId: string, answerValue: Option<string>)

  /** What the page renders. */
  datatype PageView =
    | Redirect(target: string)
    | LoadingText
    | ErrorText(message: string)
    | NotFoundText
    | Thanks(chartSurveyId: string)
    | Form

  const NotFoundOrInactive := "Encuesta no encontrada o inactiva."
  const SaveFallback := "No se pudieron guardar las respuestas."
  const LoginPrefix := "/login?returnTo="

  // ---------------------------------------------------------------------------
  // Pure parts

  /** `{ ...q, options: q.options && Array.isArray(q.options) ? q.options : [] }` */
  function Normalised(r: QuestionRow): (q: PageQuestion)
    ensures q.options == (if r.options.Labels? then r.options.items else [])
    ensures q.id == r.id && q.text == r.text && q.qtype == r.qtype
  {
    PageQuestion(r.id, r.text, r.qtype, Tabulation.Declared(r.options))
  }

  /** `(questions ?? []).map(...)` */
  function NormalisedAll(rows: Option<seq<QuestionRow>>): (qs: seq<PageQuestion>)
    ensures rows.None? ==> qs == []
    ensures rows.Some? ==> |qs| == |rows.value| && forall i :: 0 <= i < |qs| ==> qs[i] == Normalised(rows.value[i])
  {
    var rs := rows.OrElse([]);
    seq(|rs|, i requires 0 <= i < |rs| => Normalised(rs[i]))
  }

  /** `answers[id] ?? null` */
  function Lookup(answers: map<string, string>, id: string): (v: Option<string>)
    ensures v.Some? <==> id in answers
    ensures v.Some? ==> v.value == answers[id]
  {
    if id in answers then Some(answers[id]) else None
  }

  /** The answer rows of a submission: one per loaded question, in order. */
  function AnswerRows(responseId: string, questions: seq<PageQuestion>, answers: map<string, string>): (rows: seq<AnswerRow>)
    ensures |rows| == |questions|
    ensures forall i :: 0 <= i < |rows| ==>
      rows[i].responseId == responseId && rows[i].questionId == questions[i].id
      && rows[i].answerValue == Lookup(answers, questions[i].id)
  {
    seq(|questions|, i requires 0 <= i < |questions| => AnswerRow(responseId, questions[i].id, Lookup(answers, questions[i].id)))
  }

  /** The answer rows as the chart reads them back (`question_id, answer_value`). */
  function AsChartAnswers(rows: seq<AnswerRow>): (r: seq<Tabulation.Answer>)
    ensures |r| == |rows|
    ensures forall i :: 0 <= i < |r| ==> r[i] == Tabulation.Answer(rows[i].questionId, rows[i].answerValue)
  {
    seq(|rows|, i requires 0 <= i < |rows| => Tabulation.Answer(rows[i].questionId, rows[i].answerValue))
  }

  /** The questions have pairwise different ids. */
  predicate DistinctIds(questions: seq<PageQuestion>) {
    forall i, j :: 0 <= i < j < |questions| ==> questions[i].id != questions[j].id
  }

  /** `Hits` over a list counts one for each row that votes. */
  lemma {:induction false} HitsOfSingle(answers: seq<Tabulation.Answer>, p: nat, qid: string, key: string)
    requires p < |answers|
    requires forall i :: 0 <= i < |answers| && i != p ==> answers[i].questionId != qid
    ensures Tabulation.Hits(answers, qid, key) == (if Tabulation.Votes(answers[p], qid, key) then 1 else 0)
    decreases |answers|
  {
    var init := answers[..|answers| - 1];
    if p == |answers| - 1 {
      HitsOfNone(init, qid, key);
    } else {
      HitsOfSingle(init, p, qid, key);
    }
  }

  /** No row of the question means no vote. */
  lemma {:induction false} HitsOfNone(answers: seq<Tabulation.Answer>, qid: string, key: string)
    requires forall i :: 0 <= i < |answers| ==> answers[i].questionId != qid
    ensures Tabulation.Hits(answers, qid, key) == 0
    decreases |answers|
  {
    if answers != [] {
      HitsOfNone(answers[..|answers| - 1], qid, key);
    }
  }

  /**
   * One submission is one vote per question: tabulating its answer rows gives
   * question `questions[p]` exactly one vote, for the normalised value of its
   * entry in the answer map (`''` when it was never answered), and none for any
   * other label.
   */
  lemma SubmissionIsOneVote(responseId: string, questions: seq<PageQuestion>, answers: map<string, string>, p: nat, key: string)
    requires DistinctIds(questions) && p < |questions|
    ensures var qid := questions[p].id;
      Tabulation.Hits(AsChartAnswers(AnswerRows(responseId, questions, answers)), qid, key)
      == if Tabulation.Normalise(Lookup(answers, qid)) == key then 1 else 0
  {
    var chart := AsChartAnswers(AnswerRows(responseId, questions, answers));
    HitsOfSingle(chart, p, questions[p].id, key);
  }

  /**
   * The view precedence. The redirect to the login page comes first: once auth
   * has finished loading without a user, nothing else is shown. Then loading
   * (of the page or of auth), a (truthy) error, a missing survey, the thanks
   * page with the survey's chart, and finally the form.
   */
  function Screen(authLoading: bool, user: Option<string>, encodedPath: string,
                  loading: bool, error: Option<string>, survey: Option<SurveyInfo>, done: bool): (v: PageView)
    ensures v.Redirect? <==> !authLoading && user.None?
    ensures v.Redirect? ==> v.target == LoginPrefix + encodedPath
    ensures v == LoadingText <==> !v.Redirect? && (loading || authLoading)
    ensures v.ErrorText? <==> !v.Redirect? && !loading && !authLoading && Truthy(error)
    ensures v == NotFoundText <==> !v.Redirect? && !loading && !authLoading && !Truthy(error) && survey.None?
    ensures v.Thanks? <==> !v.Redirect? && !loading && !authLoading && !Truthy(error) && survey.Some? && done
    ensures v.Thanks? ==> v.chartSurveyId == survey.value.id
  {
    if !authLoading && user.None? then Redirect(LoginPrefix + encodedPath)
    else if loading || authLoading then LoadingText
    else if Truthy(error) then ErrorText(error.value)
    else if survey.None? then NotFoundText
    else if done then Thanks(survey.value.id)
    else Form
  }

  // ---------------------------------------------------------------------------
  // The page state

  class PublicSurveyPage {
    var survey: Option<SurveyInfo>
    var questions: seq<PageQuestion>
    var answers: map<string, string>
    var loading: bool
    var saving: bool
    var done: bool
    var error: Option<string>

    constructor()
      ensures survey == None && questions == [] && answers == map[]
      ensures loading && !saving && !done && error == None
    {
      survey := None;
      questions := [];
      answers := map[];
      loading := true;
      saving := false;
      done := false;
      error := None;
    }

    /**
     * What the page shows, given the auth state and `encodeURIComponent` of the
     * current path and query.
     */
    function View(authLoading: bool, user: Option<string>, encodedPath: string): PageView
      reads this
    {
      Screen(authLoading, user, encodedPath, loading, error, survey, done)
    }

    /**
     * `load` for a non-empty slug. `found` is the active survey, or None when the
     * query failed or found none; `fetched` is the result of the question query.
     */
    method Load(found: Option<SurveyInfo>, fetched: QuestionsFetch)
      modifies this
      ensures !loading
      ensures found.None? ==> error == Some(NotFoundOrInactive) && survey == old(survey) && questions == old(questions)
      ensures found.Some? && fetched.QuestionsFailed? ==>
        error == Some(fetched.message) && survey == old(survey) && questions == old(questions)
      ensures found.Some? && fetched.QuestionsFetched? ==>
        error == None && survey == found && questions == NormalisedAll(fetched.rows)
      ensures answers == old(answers) && saving == old(saving) && done == old(done)
    {
      loading := true;
      error := None;
      if found.None? {
        error := Some(NotFoundOrInactive);
        loading := false;
        return;
      }
      if fetched.QuestionsFailed? {
        error := Some(fetched.message);
        loading := false;
        return;
      }
      survey := found;
      questions := NormalisedAll(fetched.rows);
      loading := false;
    }

    /**
     * Choosing an option or typing an answer for question `qid`: its entry becomes
     * `value` and every other entry stays as it was.
     */
    method SetAnswer(qid: string, value: string)
      modifies this
      ensures answers == old(answers)[qid := value]
      ensures survey == old(survey) && questions == old(questions) && loading == old(loading)
      ensures saving == old(saving) && done == old(done) && error == old(error)
    {
      answers := answers[qid := value];
    }

    /**
     * `handleSubmit`. Without a loaded survey or a user nothing happens. Otherwise
     * the response row is inserted; if that fails the answer rows are never sent;
     * if it succeeds the answer rows are built and sent, and `done` is set only
     * when their insert succeeds too. Returns the answer rows sent, if any.
     */
    method HandleSubmit(user: Option<string>, response: ResponseInsert, answersError: Option<Thrown>)
      returns (sent: Option<seq<AnswerRow>>)
      modifies this
      ensures survey.None? || user.None? ==>
        sent == None && done == old(done) && error == old(error) && saving == old(saving)
      ensures survey.Some? && user.Some? ==> !saving
      ensures survey.Some? && user.Some? && response.ResponseFailed? ==>
        sent == None && done == old(done) && error == Some(MessageOr(response.err, SaveFallback))
      ensures survey.Some? && user.Some? && response.ResponseInserted? ==>
        sent == Some(AnswerRows(response.id, questions, answers))
      ensures survey.Some? && user.Some? && response.ResponseInserted? && answersError.Some? ==>
        done == old(done) && error == Some(MessageOr(answersError.value, SaveFallback))
      ensures survey.Some? && user.Some? && response.ResponseInserted? && answersError.None? ==>
        done && error == None
      ensures survey.Some? && user.Some? && response.ResponseInserted? && answersError.None? && !loading ==>
        forall path :: View(false, user, path) == Thanks(survey.value.id)
      ensures survey == old(survey) && questions == old(questions) && answers == old(answers) && loading == old(loading)
    {
      sent := None;
      if survey.None? || user.None? {
        return;
      }
      saving := true;
      error := None;
      match response {
        case ResponseFailed(e) =>
          error := Some(MessageOr(e, SaveFallback));
        case ResponseInserted(responseId) =>
          var rows := AnswerRows(responseId, questions, answers);
          sent := Some(rows);
          if answersError.Some? {
            error := Some(MessageOr(answersError.value, SaveFallback));
          } else {
            done := true;
          }
      }
      saving := false;
    }
  }

  /**
   * After a successful submission, with auth settled and a user signed in, the
   * page shows the thanks page with the chart of the survey just answered.
   */
  lemma SubmittedShowsChart(user: string, encodedPath: string, survey: SurveyInfo)
    ensures Screen(false, Some(user), encodedPath, false, None, Some(survey), true) == Thanks(survey.id)
  {
  }
}
