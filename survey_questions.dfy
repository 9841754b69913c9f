/**
 * The question editor of a survey: loading the survey and checking its owner,
 * the option list of the question being written (append, remove), the
 * validation and insert payload of a new question, and the final check before
 * leaving the editor. Query results are parameters of the handlers.
 */
module SurveyQuestions {
  import opened Js
  import Tabulation

  /** A row of `questions` as fetched with `select('*')`; its `options` may be anything. */
  datatype QuestionRow = QuestionRow(id: string, text: string, qtype: string, options: Tabulation.Options, order: int)

  /** A question as the page keeps it: `options` is always an array. */
  datatype StoredQuestion = StoredQuestion(id: string, text: string, qtype: string, options: seq<string>, order: int)

  /** The object passed to `insert` for a new question. */
  datatype NewQuestion = NewQuestion(surveyId: string, text: string, qtype: string, options: seq<string>, order: int)

  /** A row of `surveys` as fetched (`id, title, owner_id`). */
  datatype SurveyRow = SurveyRow(id: string, title: string, ownerId: Option<string>)

  /** What the page renders. */
  datatype QuestionsView = LoadingText | Blocked(message: string) | Editor

  const NotFound := "Encuesta no encontrada"
  const NotOwner := "No tienes permisos para editar esta encuesta"
  const NeedTwoOptions := "La pregunta debe tener al menos 2 opciones"
  const AddFallback := "Error agregando pregunta"
  const NeedOneQuestion := "Debes agregar al menos una pregunta antes de finalizar"
  const SingleChoice := "single_choice"
  const SurveysPath := "/surveys"

  // ---------------------------------------------------------------------------
  // Pure parts

  /** `{ ...q, options: Array.isArray(q.options) ? q.options : [] }` */
  function Normalised(r: QuestionRow): (q: StoredQuestion)
    ensures q.options == (if r.options.Labels? then r.options.items else [])
    ensures q.id == r.id && q.text == r.text && q.qtype == r.qtype && q.order == r.order
  {
    StoredQuestion(r.id, r.text, r.qtype, Tabulation.Declared(r.options), r.order)
  }

  /** `questionsData.map(...)` with the normalisation above. */
  function NormalisedAll(rows: seq<QuestionRow>): (qs: seq<StoredQuestion>)
    ensures |qs| == |rows|
    ensures forall i :: 0 <= i < |qs| ==> qs[i] == Normalised(rows[i])
  {
    seq(|rows|, i requires 0 <= i < |rows| => Normalised(rows[i]))
  }

  /** `options.filter((_, i) => i !== index)` */
  function WithoutIndex(s: seq<string>, index: int): seq<string> {
    if s == [] then []
    else WithoutIndex(s[..|s| - 1], index) + (if |s| - 1 == index then [] else [s[|s| - 1]])
  }

  /**
   * Removing index `index` drops exactly that element and keeps the others in
   * order; an index outside the list changes nothing.
   */
  lemma {:induction false} WithoutIndexSpec(s: seq<string>, index: int)
    ensures 0 <= index < |s| ==> WithoutIndex(s, index) == s[..index] + s[index + 1..]
    ensures !(0 <= index < |s|) ==> WithoutIndex(s, index) == s
  {
    if s != [] {
      var init, last := s[..|s| - 1], s[|s| - 1];
      WithoutIndexSpec(init, index);
      assert s == init + [last];
      if index == |s| - 1 {
        assert s[..index] == init && s[index + 1..] == [];
      } else if 0 <= index < |s| - 1 {
        DropBeforeLast(init, last, index);
      }
    }
  }

  /** Dropping an index before the last element commutes with appending that element. */
  lemma DropBeforeLast(init: seq<string>, last: string, index: int)
    requires 0 <= index < |init|
    ensures (init[..index] + init[index + 1..]) + [last]
            == (init + [last])[..index] + (init + [last])[index + 1..]
  {
    var s := init + [last];
    assert s[..index] == init[..index];
    assert s[index + 1..] == init[index + 1..] + [last];
  }

  /** An option as `addOption` stores it: non-empty and already trimmed. */
  predicate CleanOption(o: string) {
    o != [] && Trim(o) == o
  }

  /** Every option is clean. */
  predicate CleanOptions(opts: seq<string>) {
    forall o :: o in opts ==> CleanOption(o)
  }

  /** Appending a trimmed, non-blank input keeps the options clean. */
  lemma CleanAfterAdd(opts: seq<string>, input: string)
    requires CleanOptions(opts) && Trim(input) != []
    ensures CleanOptions(opts + [Trim(input)])
  {
    TrimIdempotent(input);
    assert CleanOption(Trim(input));
  }

  /** Removing an option keeps only options that were there. */
  lemma {:induction false} WithoutIndexSubset(s: seq<string>, index: int)
    ensures forall o :: o in WithoutIndex(s, index) ==> o in s
  {
    if s != [] {
      var init := s[..|s| - 1];
      WithoutIndexSubset(init, index);
      assert forall o :: o in init ==> o in s;
    }
  }

  /** Removing an option keeps the options clean. */
  lemma CleanAfterRemove(opts: seq<string>, index: int)
    requires CleanOptions(opts)
    ensures CleanOptions(WithoutIndex(opts, index))
  {
    WithoutIndexSubset(opts, index);
  }

  /**
   * The guard and the payload of `handleAddQuestion`: without a survey id, with a
   * blank text or with fewer than two options the answer is the validation
   * message; otherwise the question to insert.
   */
  function AddQuestionPayload(surveyId: Option<string>, text: string, options: seq<string>, existing: nat): (r: Result<NewQuestion>)
    ensures r.Err? <==> !Truthy(surveyId) || Trim(text) == [] || |options| < 2
    ensures r.Err? ==> r.message == NeedTwoOptions
    ensures r.Ok? ==> r.value == NewQuestion(surveyId.value, Trim(text), SingleChoice, options, existing + 1)
  {
    if !Truthy(surveyId) || Trim(text) == [] || |options| < 2 then Err(NeedTwoOptions)
    else Ok(NewQuestion(surveyId.value, Trim(text), SingleChoice, options, existing + 1))
  }

  /**
   * Every accepted question has a non-empty, trimmed text, at least two options
   * and an order number one past the questions already listed, so never below 1.
   */
  lemma PayloadWellFormed(surveyId: Option<string>, text: string, options: seq<string>, existing: nat)
    requires AddQuestionPayload(surveyId, text, options, existing).Ok?
    ensures var p := AddQuestionPayload(surveyId, text, options, existing).value;
      p.surveyId != [] && p.text != [] && Trim(p.text) == p.text
      && |p.options| >= 2 && p.order >= 1 && p.qtype == SingleChoice
  {
    TrimIdempotent(text);
  }

  /** The owner check: a user is signed in and the survey's `owner_id` is that user's id. */
  predicate OwnedBy(survey: SurveyRow, user: Option<string>) {
    user.Some? && survey.ownerId == Some(user.value)
  }

  /** `survey.owner_id` as a JavaScript value: a string, or `null` for a survey without owner. */
  function OwnerIdValue(survey: SurveyRow): Primitive {
    if survey.ownerId.Some? then Str(survey.ownerId.value) else Null
  }

  /** `user?.id`: the user's id, or `undefined` when nobody is signed in. */
  function UserIdValue(user: Option<string>): Primitive {
    if user.Some? then Str(user.value) else Undefined
  }

  /**
   * The source's test `survey.owner_id !== user?.id` rejects exactly the surveys
   * the user does not own. In particular a survey without owner is rejected when
   * nobody is signed in, because `null !== undefined`.
   */
  lemma OwnerCheck(survey: SurveyRow, user: Option<string>)
    ensures OwnedBy(survey, user) <==> StrictEquals(OwnerIdValue(survey), UserIdValue(user))
    ensures survey.ownerId.None? && user.None? ==>
      OwnerIdValue(survey) == Null && UserIdValue(user) == Undefined && !OwnedBy(survey, user)
  {
  }

  /** The render precedence: loading, then an error while no survey is open, then the editor. */
  function Screen(loading: bool, error: Option<string>, surveyId: Option<string>): (v: QuestionsView)
    ensures loading <==> v == LoadingText
    ensures v.Blocked? <==> !loading && Truthy(error) && !Truthy(surveyId)
    ensures v.Blocked? ==> v.message == error.value
  {
    if loading then LoadingText
    else if Truthy(error) && !Truthy(surveyId) then Blocked(error.value)
    else Editor
  }

  // ---------------------------------------------------------------------------
  // The page state

  class QuestionsPage {
    var surveyId: Option<string>
    var surveyTitle: string
    var questions: seq<StoredQuestion>
    var loading: bool
    var saving: bool
    var error: Option<string>
    var questionText: string
    var optionInput: string
    var options: seq<string>

    /** The options being written are always clean. */
    predicate Valid()
      reads this
    {
      CleanOptions(options)
    }

    function View(): QuestionsView
      reads this
    {
      Screen(loading, error, surveyId)
    }

    /** The initial state of every `useState`. */
    constructor()
      ensures Valid()
      ensures surveyId == None && surveyTitle == "" && questions == [] && loading && !saving
      ensures error == None && questionText == "" && optionInput == "" && options == []
    {
      surveyId := None;
      surveyTitle := "";
      questions := [];
      loading := true;
      saving := false;
      error := None;
      questionText := "";
      optionInput := "";
      options := [];
    }

    /** Typing in the option field. */
    method SetOptionInput(s: string)
      modifies this
      requires Valid()
      ensures Valid()
      ensures optionInput == s
      ensures options == old(options) && questionText == old(questionText) && questions == old(questions)
      ensures surveyTitle == old(surveyTitle)
      ensures surveyId == old(surveyId) && error == old(error) && saving == old(saving) && loading == old(loading)
    {
      optionInput := s;
    }

    /** Typing in the question field. */
    method SetQuestionText(s: string)
      modifies this
      requires Valid()
      ensures Valid()
      ensures questionText == s
      ensures options == old(options) && optionInput == old(optionInput) && questions == old(questions)
      ensures surveyTitle == old(surveyTitle)
      ensures surveyId == old(surveyId) && error == old(error) && saving == old(saving) && loading == old(loading)
    {
      questionText := s;
    }

    /**
     * `addOption`: a blank input changes nothing; otherwise the trimmed input is
     * appended and the input cleared.
     */
    method AddOption()
      modifies this
      requires Valid()
      ensures Valid()
      ensures Trim(old(optionInput)) == [] ==> options == old(options) && optionInput == old(optionInput)
      ensures Trim(old(optionInput)) != [] ==> options == old(options) + [Trim(old(optionInput))] && optionInput == ""
      ensures questionText == old(questionText) && questions == old(questions) && surveyId == old(surveyId)
      ensures surveyTitle == old(surveyTitle) && error == old(error) && saving == old(saving) && loading == old(loading)
    {
      var trimmed := Trim(optionInput);
      if trimmed == [] {
        return;
      }
      CleanAfterAdd(options, optionInput);
      options := options + [trimmed];
      optionInput := "";
    }

    /** `removeOption(index)`: the element at `index` is dropped; the others keep their order. */
    method RemoveOption(index: int)
      modifies this
      requires Valid()
      ensures Valid()
      ensures 0 <= index < |old(options)| ==> options == old(options)[..index] + old(options)[index + 1..]
      ensures !(0 <= index < |old(options)|) ==> options == old(options)
      ensures optionInput == old(optionInput) && questionText == old(questionText) && questions == old(questions)
      ensures surveyId == old(surveyId) && surveyTitle == old(surveyTitle)
      ensures error == old(error) && saving == old(saving) && loading == old(loading)
    {
      CleanAfterRemove(options, index);
      WithoutIndexSpec(options, index);
      options := WithoutIndex(options, index);
    }

    /**
     * `loadSurvey` for a non-empty slug. `survey` is the row found, or `None` when
     * the query failed or found nothing; `user` is the signed-in user's id;
     * `questionsData` is the result of the question query (null when absent).
     */
    method LoadSurvey(survey: Option<SurveyRow>, user: Option<string>, questionsData: Option<seq<QuestionRow>>)
      modifies this
      requires Valid()
      ensures Valid()
      ensures !loading
      ensures survey.None? ==>
        error == Some(NotFound) && surveyId == old(surveyId) && surveyTitle == old(surveyTitle) && questions == old(questions)
      ensures survey.Some? && !OwnedBy(survey.value, user) ==>
        error == Some(NotOwner) && surveyId == old(surveyId) && surveyTitle == old(surveyTitle) && questions == old(questions)
      ensures survey.None? && !Truthy(old(surveyId)) ==> View() == Blocked(NotFound)
      ensures survey.Some? && !OwnedBy(survey.value, user) && !Truthy(old(surveyId)) ==> View() == Blocked(NotOwner)
      ensures survey.Some? && OwnedBy(survey.value, user) ==>
        surveyId == Some(survey.value.id) && surveyTitle == survey.value.title && error == old(error)
        && questions == (if questionsData.Some? then NormalisedAll(questionsData.value) else old(questions))
      ensures options == old(options) && optionInput == old(optionInput) && questionText == old(questionText)
      ensures saving == old(saving)
    {
      loading := true;
      if survey.None? {
        error := Some(NotFound);
        loading := false;
        return;
      }
      var s := survey.value;
      OwnerCheck(s, user);
      if !StrictEquals(OwnerIdValue(s), UserIdValue(user)) {
        error := Some(NotOwner);
        loading := false;
        return;
      }
      surveyId := Some(s.id);
      surveyTitle := s.title;
      if questionsData.Some? {
        questions := NormalisedAll(questionsData.value);
      }
      loading := false;
    }

    /**
     * `handleAddQuestion`. `insertError` is the error of the insert (None when it
     * succeeded) and `reloaded` the question list fetched after it. Returns the
     * payload sent to `insert`, or None when validation stopped the handler.
     */
    method HandleAddQuestion(insertError: Option<Thrown>, reloaded: Option<seq<QuestionRow>>) returns (sent: Option<NewQuestion>)
      modifies this
      requires Valid()
      ensures Valid()
      ensures var p := AddQuestionPayload(old(surveyId), old(questionText), old(options), |old(questions)|);
        (p.Err? ==> sent == None && error == Some(p.message) && saving == old(saving)
                    && questions == old(questions) && options == old(options) && questionText == old(questionText))
        && (p.Ok? ==> sent == Some(p.value) && !saving && CleanOptions(sent.value.options))
      ensures sent.Some? && insertError.None? ==>
        questionText == "" && options == [] && error == None
        && questions == (if reloaded.Some? then NormalisedAll(reloaded.value) else old(questions))
      ensures sent.Some? && insertError.Some? ==>
        error == Some(MessageOr(insertError.value, AddFallback))
        && questions == old(questions) && options == old(options) && questionText == old(questionText)
      ensures surveyId == old(surveyId) && surveyTitle == old(surveyTitle)
      ensures optionInput == old(optionInput) && loading == old(loading)
    {
      var p := AddQuestionPayload(surveyId, questionText, options, |questions|);
      if p.Err? {
        error := Some(p.message);
        sent := None;
        return;
      }
      saving := true;
      error := None;
      sent := Some(p.value);
      if insertError.Some? {
        error := Some(MessageOr(insertError.value, AddFallback));
      } else {
        if reloaded.Some? {
          questions := NormalisedAll(reloaded.value);
        }
        questionText := "";
        options := [];
      }
      saving := false;
    }

    /**
     * `handleFinish`: with no question the error is set and nothing happens;
     * otherwise the page navigates to the survey list.
     */
    method HandleFinish() returns (navigateTo: Option<string>)
      modifies this
      requires Valid()
      ensures Valid()
      ensures questions == [] ==> navigateTo == None && error == Some(NeedOneQuestion)
      ensures questions != [] ==> navigateTo == Some(SurveysPath) && error == old(error)
      ensures questions == old(questions) && options == old(options) && surveyId == old(surveyId)
      ensures optionInput == old(optionInput) && questionText == old(questionText) && surveyTitle == old(surveyTitle)
      ensures saving == old(saving) && loading == old(loading)
    {
      if |questions| == 0 {
        error := Some(NeedOneQuestion);
        navigateTo := None;
        return;
      }
      navigateTo := Some(SurveysPath);
    }
  }

  /**
   * Loading a survey that is missing or owned by someone else, on a page with no
   * survey open yet, shows the error page and never the editor.
   */
  lemma FailedLoadBlocks(error: string, surveyId: Option<string>)
    requires error == NotFound || error == NotOwner
    requires surveyId == None
    ensures Screen(false, Some(error), surveyId) == Blocked(error)
  {
  }
}
