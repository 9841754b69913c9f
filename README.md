# QrSurvey client core, modelled in Dafny

QrSurvey is a web client for surveys. Administrators sign in, create a survey
(a title, a public slug derived from it and a list of single-choice
questions) and share it. Respondents sign in too, answer the questions and then
see the survey's results as one bar chart per question. All storage and
authentication belong to a hosted backend. This project models the client's
own logic, with every backend answer passed in as a parameter:

- `tabulation.dfy` (`Tabulation`) covers the response tabulation of the survey
  chart. For each question it builds a JavaScript object `optionCounts` keyed by
  the option labels, counts the answers to that question into it and reads it
  back with `Object.entries`. The model keeps what such an object does:
  - a repeated label becomes a single key;
  - `__proto__` never becomes an own key;
  - array-index keys (`"2"`, `"10"`) are listed first, in ascending numeric
    order, and the other keys follow in insertion order.

  The counting loops are methods, proved equal to the specification function
  `Tabulate`. Lemmas then prove what `Tabulate` promises: counts, labels, order,
  order-independence and the sum bound.
- `as_written.dfy` (`AsWritten`) is the counted path with the source's `in`
  test kept as written (see Findings).
- `survey_chart.dfy` (`SurveyChart`) is the chart's `loadData`. It runs three
  queries in turn. It has three ways to build the charts: no questions, no
  responses yet (zero bars, duplicates kept), and counted answers. It also
  covers the catch clause and the render precedence.
- `survey_questions.dfy` (`SurveyQuestions`) is the question editor: the owner
  check on load, option append and remove, question validation and insert
  payload, the form reset, and the final check.
- `public_survey.dfy` (`PublicSurvey`) is the respondent page: the answer map,
  the submission (one response row, then one answer row per question), the
  login redirect and the view precedence.
- `survey_create.dfy` (`SurveyCreate`) covers `slugify` and the create handler.
- `auth.dfy` (`Auth`) is the authentication context: the shape of the current
  user, the auth-event handler with its `isMounted` guard, and `signIn`'s error
  mapping and `signOut`.
- `login.dfy` (`Login`) is the login page: the `returnTo` default and the choice
  of error message.
- `surveys_hook.dfy` (`SurveysHook`) is the `useSurveys` hook's load status
  machine, including stale answers after an unmount or a user change.
- `js.dfy` (`Js`) holds the bits of JavaScript the client relies on: optional
  values, thrown values, `trim`, `includes` and `slice`.

The tabulation follows the code rather than the written design in two places:

- **Order:** the design says bars follow the declared option order. The counted
  path lists array-index labels first (`TabulateOrder`, `ExampleEntryOrder`).
- **Duplicates:** the design says one bar per declared option. The counted path
  collapses repeated labels and drops `__proto__` (`TabulateLabels`). Only the
  zero-responses path keeps every declared label, duplicates included
  (`ZeroCharts`).

## Model

| member | source | states |
|---|---|---|
| Tabulation.Normalise | src/modules/surveys/components/SurveyChart.tsx:122 | a null or absent answer value becomes `''`; any other value is kept as it is |
| Tabulation.ForQuestion | src/modules/surveys/components/SurveyChart.tsx:107-109 | an answer is kept iff it is one of the input answers and its `question_id` is the question's id; the result is no longer than the input |
| Tabulation.ForQuestionConcat | src/modules/surveys/components/SurveyChart.tsx:107-109 | the filter keeps the answers' order: filtering a concatenation concatenates the filtered parts, so one more answer is appended exactly when it belongs to the question |
| Tabulation.ForQuestionMultiset | src/modules/surveys/components/SurveyChart.tsx:107-109 | each answer to the question is kept as many times as it occurs (equal rows from two respondents both stay), every other answer zero times |
| Tabulation.OwnKeysSpec | src/modules/surveys/components/SurveyChart.tsx:111-118 | the initialisation loop creates each declared label other than `__proto__` as a key, once; non-array options create none |
| Tabulation.InitCounts | src/modules/surveys/components/SurveyChart.tsx:113-118 | after the `forEach`, the counter object's keys are the own keys in creation order, each with value 0 |
| Tabulation.CountAnswers | src/modules/surveys/components/SurveyChart.tsx:120-126 | counting adds no key, and each key's counter goes up by the number of answers whose normalised value equals that key |
| Tabulation.ListEntries | src/modules/surveys/components/SurveyChart.tsx:130-133 | one `{option, count}` per key, in the given entry order, with that key's counter |
| Tabulation.EntryOrderPermutes | src/modules/surveys/components/SurveyChart.tsx:130 | `Object.entries` lists every own key exactly once |
| Tabulation.SortByValueSpec | src/modules/surveys/components/SurveyChart.tsx:130 | the array-index keys are listed as a permutation of themselves, in ascending numeric order |
| Tabulation.CountQuestion | src/modules/surveys/components/SurveyChart.tsx:106-134 | the imperative per-question loop computes exactly the specification `Tabulate` |
| Tabulation.ProcessQuestions | src/modules/surveys/components/SurveyChart.tsx:106-135 | the `questions.map` loop gives one chart per question, in order, each with its text and its `Tabulate` bars |
| Tabulation.ChartsOfAt | src/modules/surveys/components/SurveyChart.tsx:128-129 | chart `i` carries the text of question `i` and its tabulation |
| Tabulation.TabulateLabels | src/modules/surveys/components/SurveyChart.tsx:114-118 | the bar labels are exactly the declared labels other than `__proto__`, without repetition and no more than declared; non-array options give no bar |
| Tabulation.TabulateCounts | src/modules/surveys/components/SurveyChart.tsx:121-126 | every bar counts exactly the answers to its question whose normalised value is its label |
| Tabulation.TabulateOrder | src/modules/surveys/components/SurveyChart.tsx:130 | array-index labels come first in ascending numeric order; the other labels keep their declaration order |
| Tabulation.TabulatePermutation | src/modules/surveys/components/SurveyChart.tsx:121-126 | permuting the answer rows leaves every question's bars unchanged |
| Tabulation.TabulateOneMore | src/modules/surveys/components/SurveyChart.tsx:121-126 | one more answer row, wherever it goes, adds one to the bar named by its normalised value if it answers this question; every other bar is unchanged, and no bar is created |
| Tabulation.TabulateIgnores | src/modules/surveys/components/SurveyChart.tsx:123 | a row for another question, or whose value is not an own key, changes no bar |
| Tabulation.NullAnswer | src/modules/surveys/components/SurveyChart.tsx:122 | a null answer is a vote for the label `''` and for no other label |
| Tabulation.TabulateSumBound | src/modules/surveys/components/SurveyChart.tsx:111-133 | a question's counts add up to at most the number of answers to it |
| Tabulation.NoAnswersAllZero | src/modules/surveys/components/SurveyChart.tsx:111-133 | with no answer rows every count is 0, over the declared labels other than `__proto__` |
| Tabulation.ZeroBars | src/modules/surveys/components/SurveyChart.tsx:79-84 | the zero-responses bars: one `{opt, 0}` per declared label, duplicates and order kept; none for non-array options |
| Tabulation.ExampleCounts | src/modules/surveys/components/SurveyChart.tsx:111-133 | labels `A`,`B` with answers `A`,`A`,`B`,`X`,null give `[(A,2),(B,1)]` |
| Tabulation.ExampleEntryOrder | src/modules/surveys/components/SurveyChart.tsx:130 | labels `b`,`10`,`2` are charted as `2`,`10`,`b` |
| AsWritten.InheritedNameCreatesBar | src/modules/surveys/components/SurveyChart.tsx:123-124 | as written, an answer `constructor` to a question without labels creates a bar `constructor` with count NaN; the corrected tabulation has no bar |
| AsWritten.InheritedAnswerCreatesBar | src/modules/surveys/components/SurveyChart.tsx:121-126 | as written, any inherited name other than `__proto__` answered to a question without labels creates a NaN bar for that name; the corrected tabulation has none |
| AsWritten.CountAsWritten | src/modules/surveys/components/SurveyChart.tsx:121-126 | as written, counting only appends keys after the label keys, and every key it adds is an inherited `Object.prototype` name holding NaN |
| AsWritten.TabulateAsWritten | src/modules/surveys/components/SurveyChart.tsx:106-134 | as written, every label gets a bar, and every other bar is an inherited name with count NaN |
| AsWritten.TabulateAsWrittenAgrees | src/modules/surveys/components/SurveyChart.tsx:111-133 | when no answer is an inherited name outside the own keys, the code as written and the corrected tabulation give the same bars |
| AsWritten.CountAsWrittenExact | src/modules/surveys/components/SurveyChart.tsx:121-126 | without bucket-creating answers, counting as written keeps the keys and gives each its number of matching answers |
| SurveyChart.LoadOutcome | src/modules/surveys/components/SurveyChart.tsx:40-147 | the load fails iff a query that was actually run failed (responses are asked only when there are questions, answers only when there are responses); a successful load has one chart per fetched question |
| SurveyChart.ZeroCharts | src/modules/surveys/components/SurveyChart.tsx:73-88 | with no responses: one chart per question, in order, each with its zero bars |
| SurveyChart.NoQuestionsNoCharts | src/modules/surveys/components/SurveyChart.tsx:53-58 | a null or empty question list gives no charts, whatever the responses and answers queries would return |
| SurveyChart.OneChartPerQuestion | src/modules/surveys/components/SurveyChart.tsx:73-135 | a successful load gives one chart per fetched question, in order, with its text: zero bars without responses, the tabulation otherwise |
| SurveyChart.NullAnswersCountNothing | src/modules/surveys/components/SurveyChart.tsx:107-109 | a null answer list counts like an empty one |
| SurveyChart.FailureMessage | src/modules/surveys/components/SurveyChart.tsx:40-147 | a failed load reports the first failing query's message, or `Error cargando datos` for a non-Error |
| SurveyChart.Screen | src/modules/surveys/components/SurveyChart.tsx:154-168 | the screen is the loading text iff loading, the error iff not loading with a truthy error, the empty notice iff neither and no charts, and the charts otherwise |
| SurveyChart.LoadedScreen | src/modules/surveys/components/SurveyChart.tsx:53-58 | after a successful load the empty notice shows exactly when the question query returned none |
| SurveyChart.SurveyChartState.LoadData | src/modules/surveys/components/SurveyChart.tsx:35-148 | the stored charts are the load's charts on success; on failure the old charts are kept and the error is stored; loading ends false |
| SurveyQuestions.Normalised | src/modules/surveys/pages/SurveyQuestionsPage.tsx:70-73 | a loaded question keeps its fields, with non-array `options` replaced by `[]` |
| SurveyQuestions.NormalisedAll | src/modules/surveys/pages/SurveyQuestionsPage.tsx:121-127 | the reloaded list is the normalisation of each fetched row, in order |
| SurveyQuestions.WithoutIndexSpec | src/modules/surveys/pages/SurveyQuestionsPage.tsx:89-91 | removing index `i` drops exactly element `i` and keeps the rest in order; an out-of-range `i` changes nothing |
| SurveyQuestions.CleanAfterAdd | src/modules/surveys/pages/SurveyQuestionsPage.tsx:83-87 | appending a trimmed, non-blank input keeps every option non-empty and trimmed |
| SurveyQuestions.CleanAfterRemove | src/modules/surveys/pages/SurveyQuestionsPage.tsx:89-91 | removing an option keeps every option non-empty and trimmed |
| SurveyQuestions.AddQuestionPayload | src/modules/surveys/pages/SurveyQuestionsPage.tsx:95-110 | rejected with the validation message iff the survey id is missing, the trimmed text is empty or there are fewer than 2 options; otherwise trimmed text, `single_choice`, the options and `order = questions.length + 1` |
| SurveyQuestions.PayloadWellFormed | src/modules/surveys/pages/SurveyQuestionsPage.tsx:104-110 | an accepted question has non-empty trimmed text, at least two options and an order of at least 1 |
| SurveyQuestions.OwnerCheck | src/modules/surveys/pages/SurveyQuestionsPage.tsx:52 | `survey.owner_id !== user?.id`, evaluated with JavaScript's strict equality on `null`, `undefined` and strings, is false exactly when the user owns the survey; a survey with null `owner_id` is rejected when nobody is signed in, since `null !== undefined` |
| SurveyQuestions.Screen | src/modules/surveys/pages/SurveyQuestionsPage.tsx:151-166 | loading first, then the error page iff an error is set while no survey is open, then the editor |
| SurveyQuestions.FailedLoadBlocks | src/modules/surveys/pages/SurveyQuestionsPage.tsx:45-56 | the render side of a failed load: with either load error and no survey open, the error page is shown rather than the editor (the state `LoadSurvey` leaves is stated on `LoadSurvey`) |
| SurveyQuestions.QuestionsPage.SetOptionInput | src/modules/surveys/pages/SurveyQuestionsPage.tsx:232 | typing in the option field sets `optionInput` and leaves every other field, the survey title included, as it was |
| SurveyQuestions.QuestionsPage.SetQuestionText | src/modules/surveys/pages/SurveyQuestionsPage.tsx:219 | typing in the question field sets `questionText` and leaves every other field, the survey title included, as it was |
| SurveyQuestions.QuestionsPage.AddOption | src/modules/surveys/pages/SurveyQuestionsPage.tsx:83-87 | a blank input changes nothing at all (every field, the survey title included, is framed); otherwise the trimmed input is appended and the input cleared |
| SurveyQuestions.QuestionsPage.RemoveOption | src/modules/surveys/pages/SurveyQuestionsPage.tsx:89-91 | exactly element `index` is removed, if it exists; every other field, the survey title included, is unchanged |
| SurveyQuestions.QuestionsPage.LoadSurvey | src/modules/surveys/pages/SurveyQuestionsPage.tsx:37-78 | missing survey gives `Encuesta no encontrada`; foreign survey gives the permission error, and `surveyId`, `surveyTitle` and the questions are unchanged in both cases, so on a page with no survey open the view becomes the error page with that message; otherwise the id, title and normalised questions are stored |
| SurveyQuestions.QuestionsPage.HandleAddQuestion | src/modules/surveys/pages/SurveyQuestionsPage.tsx:93-141 | on validation failure: error set, nothing sent. On insert success: text and options reset, questions reloaded. On insert failure: form kept, error set. Every option sent is non-empty and trimmed. `saving` ends false; the survey id and title never change |
| SurveyQuestions.QuestionsPage.HandleFinish | src/modules/surveys/pages/SurveyQuestionsPage.tsx:143-149 | with no questions the error is set and there is no navigation; otherwise it navigates to `/surveys`; no other field, the survey title included, changes |
| PublicSurvey.Normalised | src/modules/surveys/pages/PublicSurveyPage.tsx:70-76 | null or non-array `options` become `[]`; the other fields are kept |
| PublicSurvey.NormalisedAll | src/modules/surveys/pages/PublicSurveyPage.tsx:69-77 | a null question list becomes `[]`; otherwise each row is normalised, in order |
| PublicSurvey.Lookup | src/modules/surveys/pages/PublicSurveyPage.tsx:117 | `answers[id] ?? null` is the entry when there is one, and null otherwise |
| PublicSurvey.AnswerRows | src/modules/surveys/pages/PublicSurveyPage.tsx:114-118 | one row per loaded question, in order, with the response id, the question id and the stored answer or null |
| PublicSurvey.SubmissionIsOneVote | src/modules/surveys/pages/PublicSurveyPage.tsx:114-118 | read back by the chart, a submission gives each question one vote, for its normalised answer |
| PublicSurvey.Screen | src/modules/surveys/pages/PublicSurveyPage.tsx:84-181 | the login redirect, with the encoded path appended to `/login?returnTo=`, iff auth has loaded and there is no user; then loading, error, missing survey, thanks with chart, form |
| PublicSurvey.SubmittedShowsChart | src/modules/surveys/pages/PublicSurveyPage.tsx:163-178 | the render side: with auth settled, a user, no error and `done` set, the thanks page shows the chart of the loaded survey (the state `HandleSubmit` leaves is stated on `HandleSubmit`) |
| PublicSurvey.PublicSurveyPage.Load | src/modules/surveys/pages/PublicSurveyPage.tsx:39-79 | a missing or inactive survey gives its error; a failed question query gives that query's message; otherwise the survey and normalised questions are stored |
| PublicSurvey.PublicSurveyPage.SetAnswer | src/modules/surveys/pages/PublicSurveyPage.tsx:205-231 | `answers[q.id]` becomes the value; every other entry is unchanged |
| PublicSurvey.PublicSurveyPage.HandleSubmit | src/modules/surveys/pages/PublicSurveyPage.tsx:90-137 | no survey or no user: nothing happens. A failed response insert sends no answer rows. `done` is set only after both inserts succeed, and then the page (with auth settled) shows the thanks page with that survey's chart. `saving` ends false |
| SurveyCreate.Slugify | src/modules/surveys/pages/SurveyCreatePage.tsx:8-17 | the slug is the clean base of the title (of `encuesta` for an empty title), then `-`, then characters 2 to 6 of the random string; for any string `Math.random().toString(36)` can produce, that is at most 5 base-36 digits and the whole slug is in `[a-z0-9-]` |
| SurveyCreate.CollapseSpec | src/modules/surveys/pages/SurveyCreatePage.tsx:13 | collapsing gives only `[a-z0-9-]`, never `--`, and starts with `-` iff the input starts outside `[a-z0-9]` |
| SurveyCreate.SlugBaseClean | src/modules/surveys/pages/SurveyCreatePage.tsx:12-14 | the base has only `[a-z0-9-]`, no `--` and no `-` at either end |
| SurveyCreate.BaseOfClean | src/modules/surveys/pages/SurveyCreatePage.tsx:9-14 | the base transformation leaves an already clean base unchanged |
| SurveyCreate.BaseIdempotent | src/modules/surveys/pages/SurveyCreatePage.tsx:9-14 | applying the base transformation twice is the same as once |
| SurveyCreate.BaseKeepsAlnums | src/modules/surveys/pages/SurveyCreatePage.tsx:12-14 | the base keeps the folded title's `[a-z0-9]` characters, in order, and has no others |
| SurveyCreate.EmptyBase | src/modules/surveys/pages/SurveyCreatePage.tsx:12-14 | the base is empty iff the folded title has no `[a-z0-9]` character |
| SurveyCreate.PunctuationTitle | src/modules/surveys/pages/SurveyCreatePage.tsx:15-16 | a title made only of punctuation gives a slug starting with `-` |
| SurveyCreate.EmptyTitle | src/modules/surveys/pages/SurveyCreatePage.tsx:40 | an empty title slugifies from `encuesta` |
| SurveyCreate.CreatePage.HandleSubmit | src/modules/surveys/pages/SurveyCreatePage.tsx:28-64 | no user: error set and nothing inserted. Otherwise the survey is inserted with the slug. On success it navigates to `/surveys/<slug>/questions`; on failure it shows the error. Loading ends false |
| Auth.ShapeUser | src/context/AuthContext.tsx:40-65 | no auth user gives null; otherwise the user's id, the email or `''`, and the profile's name and role, both null when there is no profile |
| Auth.ProfileErrorKeepsUser | src/context/AuthContext.tsx:55-65 | a failed profile query still yields the user, with name and role null |
| Auth.SignInMessage | src/context/AuthContext.tsx:146-156 | first match wins: invalid credentials, then unconfirmed email, then `Error de autenticación: ` plus the message |
| Auth.SignInMessageShapes | src/context/AuthContext.tsx:149-155 | every thrown message is one of the two fixed ones or the prefix followed by the service's message |
| Auth.CredentialsCheckedFirst | src/context/AuthContext.tsx:149-152 | a message containing both substrings reports wrong credentials |
| Auth.AuthProvider.InitBegin | src/context/AuthContext.tsx:82 | the start of `init` sets loading and leaves the user and the mounted flag alone |
| Auth.AuthProvider.InitComplete | src/context/AuthContext.tsx:81-89 | the loaded user is stored and loading ends only while mounted |
| Auth.AuthProvider.OnAuthStateChange | src/context/AuthContext.tsx:95-123 | while mounted: `SIGNED_OUT` clears the user, and `TOKEN_REFRESHED`/`USER_UPDATED` store the reloaded user; both end loading. `SIGNED_IN` and other events change nothing; nothing changes once unmounted |
| Auth.AuthProvider.Unmount | src/context/AuthContext.tsx:125-128 | the cleanup clears `isMounted` and changes nothing else |
| Auth.AuthProvider.SignIn | src/context/AuthContext.tsx:131-163 | an auth error throws the mapped message with the user unchanged; otherwise the reloaded user is stored |
| Auth.AuthProvider.SignOut | src/context/AuthContext.tsx:180-184 | an error is rethrown with the user unchanged; otherwise the user is cleared |
| Login.ReturnTo | src/modules/auth/pages/LoginPage.tsx:15 | the `returnTo` parameter when present and non-empty, `/dashboard` otherwise; never empty |
| Login.LoginErrorMessage | src/modules/auth/pages/LoginPage.tsx:36-49 | a non-Error gives the generic message; an Error is matched against the three keys in order, falling back to its own message |
| Login.ShownMessageNonEmpty | src/modules/auth/pages/LoginPage.tsx:36-49 | the message shown is empty only if the thrown Error's own message was |
| Login.SignInErrorsShown | src/modules/auth/pages/LoginPage.tsx:40-43 | the messages that `signIn` throws for bad credentials and for an unconfirmed email each reach their own message on the page |
| Login.LoginPage.HandleSubmit | src/modules/auth/pages/LoginPage.tsx:22-56 | the error is cleared at the start. Success navigates to `returnTo` with replace; failure shows the chosen message. Loading ends false |
| SurveysHook.Step | src/modules/surveys/hooks/useSurveys.ts:24-57 | one event keeps the state valid; only an effect run for a user starts a query, numbered next; an unmount only forgets the awaited run; an answer for a run not awaited changes nothing |
| SurveysHook.RunValid | src/modules/surveys/hooks/useSurveys.ts:20-57 | over any event sequence: status `error` iff an error is stored; `idle` only before any query and with no data; while a query is awaited, status `loading` and no error |
| SurveysHook.NoUserStaysIdle | src/modules/surveys/hooks/useSurveys.ts:20-25 | with no user no query runs: status stays `idle`, data `[]` and error null |
| SurveysHook.LoadSettles | src/modules/surveys/hooks/useSurveys.ts:30-48 | a query error stores the message with status `error` and keeps the data; rows (or `[]` for null) are stored with status `success` |
| SurveysHook.StaleAnswerIgnored | src/modules/surveys/hooks/useSurveys.ts:24-57 | an answer that arrives after unmount, or after the effect re-ran, changes nothing |
| SurveysHook.SurveysHookState.RunEffect | src/modules/surveys/hooks/useSurveys.ts:24-31 | without a user nothing starts; with one the status becomes `loading` and the error is cleared |
| SurveysHook.SurveysHookState.Unmount | src/modules/surveys/hooks/useSurveys.ts:54-56 | the cleanup marks the awaited run as unmounted; status, data and error are unchanged |
| SurveysHook.SurveysHookState.Answer | src/modules/surveys/hooks/useSurveys.ts:41-49 | an answer whose run is unmounted changes nothing. Otherwise: an error sets the message and `error` status; rows set the data and `success` status |
| Js.Trim | src/modules/surveys/pages/SurveyQuestionsPage.tsx:84-85 | `trim` removes exactly the leading and trailing white space; the result is empty iff the input is blank |
| Js.TrimIdempotent | src/modules/surveys/pages/SurveyQuestionsPage.tsx:85 | trimming a trimmed string changes nothing |

## Left out

- Backend calls are not modelled. The `supabase` queries, inserts and auth calls become parameters that carry their result: rows, error or thrown value.
- Rendering is not modelled: JSX, styles, recharts, colour cycling and the QR code.
- Logging is left out: `console` calls.
- Unicode case folding and normalisation are abstract. `toLowerCase().normalize('NFD')` in `slugify` needs the Unicode tables, so it is the parameter `fold`. `SurveyCreate.BaseOfClean` and `SurveyCreate.BaseIdempotent` are stated for the part after folding.
- The random suffix is a parameter. `Math.random().toString(36)` is taken as the string it produced; `SurveyCreate.Base36Fraction` describes the strings it can produce, and the number-to-base-36 conversion itself is not modelled.
- `encodeURIComponent` is a parameter: the already-encoded path and query.
- `URLSearchParams` is a parameter: the `returnTo` value it yields.
- Concurrency is not modelled. Each handler is one atomic step, and overlapping `loadCurrentUser` calls or interleaved awaits inside one handler are not. The `isMounted` guard is modelled as a flag checked when the awaited result arrives.
- Non-string option labels are not modelled. A JSON number in `options` would be converted to a string as an object key; the model takes labels as strings.
- `useSurveys` run numbering is a modelling device. The hook's per-run `isMounted` closure variables become the number of the one run still awaited, so `SurveysHook.StaleAnswerIgnored` needs the answer's run to have started.
- A missing route slug is not modelled. With no slug, both pages' effects return before loading and `loading` stays true; `LoadSurvey` and `Load` model a non-empty slug.
- `resp!.id` on a null response row is not modelled. `ResponseInserted` always carries the new row's id.
- `SurveyQuestions.QuestionsPage.LoadSurvey` does not model the question query's error. The source ignores that error too, and a null `questionsData` keeps the old list.
- `signUp`, `RegisterPage`, `DashboardPage`, `SurveyListPage` and the routing in `App.tsx` are not modelled. They are view code or direct service calls with no logic beyond what is modelled here.
- `Auth.AuthProvider.SignIn` does not model the `await` between sign-in and reload. The user is replaced in one step, without the `isMounted` check, as in the source.

## Findings

| source | as written | input that shows it | evidently intended | confidence | as-written member | corrected member |
|---|---|---|---|---|---|---|
| src/modules/surveys/components/SurveyChart.tsx:123 | `value in optionCounts` also accepts names inherited from `Object.prototype`. For one that is not a label, `optionCounts[value]++` creates a new own key whose value is `NaN` | a question with no labels answered `constructor` charts a bar `constructor` with count NaN | only declared labels are counted: an own-key test (`Object.hasOwn`) | high, by reading JavaScript's property semantics; not executed | AsWritten.InheritedNameCreatesBar | Tabulation.TabulateIgnores |
