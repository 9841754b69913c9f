/**
 * The response tabulation of the survey chart: from a survey's questions and the
 * answer rows of its responses to one bar list per question.
 *
 * The counted path builds a plain JavaScript object `optionCounts` whose own keys
 * are the option labels, increments it answer by answer and reads it back with
 * `Object.entries`. The model keeps what that object does:
 *   - a label that occurs twice is one key (the first occurrence fixes its place);
 *   - `Object.entries` lists array-index keys ("0", "2", "10", ...) first, in
 *     ascending numeric order, then every other key in insertion order;
 *   - `optionCounts["__proto__"] = 0` reaches the prototype setter, so the label
 *     `__proto__` never becomes an own key;
 *   - an answer is counted only if its normalised value is an own key (the source
 *     asks `value in optionCounts`, which also accepts inherited names; see
 *     `TabulateAsWritten` for what that does).
 */
module Tabulation {
  import opened Js

  /** The `options` column of a question: a JSON array of labels, or anything else. */
  datatype Options = NotArray | Labels(items: seq<string>)

  /** A row of `questions` as the chart selects it (`id, question_text, options`). */
  datatype Question = Question(id: string, text: string, options: Options)

  /** A row of `response_answers` as the chart selects it (`question_id, answer_value`). */
  datatype Answer = Answer(questionId: string, value: Option<string>)

  /** One bar of a chart. */
  datatype Bar = Bar(option: string, count: nat)

  /** One chart: a question's text and its bars. */
  datatype Chart = Chart(question: string, data: seq<Bar>)

  /** The label that a plain object never takes as an own key. */
  const ProtoKey := "__proto__"

  /** The labels declared by a question; non-array option data declares none. */
  function Declared(o: Options): seq<string> {
    match o
    case NotArray => []
    case Labels(items) => items
  }

  /** `String(a.answer_value || '')`: null, absent and empty values all become `''`. */
  function Normalise(v: Option<string>): (r: string)
    ensures v.None? ==> r == ""
    ensures v.Some? ==> r == v.value
  {
    match v
    case None => ""
    case Some(s) => s
  }

  predicate Distinct(s: seq<string>) {
    forall i, j :: 0 <= i < j < |s| ==> s[i] != s[j]
  }

  // ---------------------------------------------------------------------------
  // Own keys of `optionCounts` after the initialisation loop

  /**
   * The own keys that `optionCounts[opt] = 0` for each `opt` of `opts` creates,
   * in creation order: first occurrences only, `__proto__` never.
   */
  function OwnKeys(opts: seq<string>): seq<string> {
    if opts == [] then []
    else
      var init := OwnKeys(opts[..|opts| - 1]);
      var opt := opts[|opts| - 1];
      if opt == ProtoKey || opt in init then init else init + [opt]
  }

  /** The own keys are the declared labels other than `__proto__`, each once. */
  lemma {:induction false} OwnKeysSpec(opts: seq<string>)
    ensures Distinct(OwnKeys(opts))
    ensures forall k :: k in OwnKeys(opts) <==> k in opts && k != ProtoKey
    ensures |OwnKeys(opts)| <= |opts|
  {
    if opts != [] {
      var init := opts[..|opts| - 1];
      OwnKeysSpec(init);
      assert opts == init + [opts[|opts| - 1]];
    }
  }

  // ---------------------------------------------------------------------------
  // The order of `Object.entries`

  predicate IsDigit(c: char) {
    '0' <= c <= '9'
  }

  /** The value of a decimal digit (0 for any other character). */
  function DigitValue(c: char): nat {
    if IsDigit(c) then c as int - '0' as int else 0
  }

  /** The decimal value of a string of digits. */
  function DecimalValue(s: string): nat {
    if s == [] then 0
    else 10 * DecimalValue(s[..|s| - 1]) + DigitValue(s[|s| - 1])
  }

  /**
   * An array index: the canonical decimal form of an integer from 0 to 2^32 - 2
   * (no sign, no leading zero except for "0" itself).
   */
  predicate IsArrayIndex(k: string) {
    |k| > 0 && (forall i :: 0 <= i < |k| ==> IsDigit(k[i]))
    && (|k| == 1 || k[0] != '0')
    && DecimalValue(k) <= 0xFFFF_FFFE
  }

  /** The array-index keys of `keys`, in their order. */
  function IndexKeys(keys: seq<string>): seq<string> {
    if keys == [] then []
    else (if IsArrayIndex(keys[0]) then [keys[0]] else []) + IndexKeys(keys[1..])
  }

  /** The keys of `keys` that are not array indices, in their order. */
  function NamedKeys(keys: seq<string>): seq<string> {
    if keys == [] then []
    else (if IsArrayIndex(keys[0]) then [] else [keys[0]]) + NamedKeys(keys[1..])
  }

  /** The two filters split the keys by kind, keep no repetition and together keep every key once. */
  lemma {:induction false} FilterSpec(keys: seq<string>)
    ensures forall k :: k in IndexKeys(keys) <==> k in keys && IsArrayIndex(k)
    ensures forall k :: k in NamedKeys(keys) <==> k in keys && !IsArrayIndex(k)
    ensures Distinct(keys) ==> Distinct(IndexKeys(keys)) && Distinct(NamedKeys(keys))
  {
    if keys != [] {
      FilterSpec(keys[1..]);
      assert keys == [keys[0]] + keys[1..];
      if Distinct(keys) {
        assert keys[0] !in keys[1..];
        assert Distinct(keys[1..]) by {
          forall i, j | 0 <= i < j < |keys[1..]| ensures keys[1..][i] != keys[1..][j] {
            assert keys[1..][i] == keys[i + 1] && keys[1..][j] == keys[j + 1];
          }
        }
      }
    }
  }

  /** Each key's value is at most the next key's value. */
  predicate Ascending(s: seq<string>) {
    |s| <= 1 || (DecimalValue(s[0]) <= DecimalValue(s[1]) && Ascending(s[1..]))
  }

  /** In an ascending list every key's value is at most every later key's value. */
  lemma {:induction false} AscendingPairwise(s: seq<string>, i: nat, j: nat)
    requires Ascending(s) && i < j < |s|
    ensures DecimalValue(s[i]) <= DecimalValue(s[j])
    decreases |s|
  {
    if i > 0 {
      AscendingPairwise(s[1..], i - 1, j - 1);
    } else if j > 1 {
      AscendingPairwise(s[1..], 0, j - 1);
    }
  }

  /** Insert `k` into a list of keys before the first one of larger value. */
  function InsertByValue(k: string, s: seq<string>): seq<string> {
    if s == [] then [k]
    else if DecimalValue(k) <= DecimalValue(s[0]) then [k] + s
    else [s[0]] + InsertByValue(k, s[1..])
  }

  /** The keys of `s` in ascending numeric order (insertion sort). */
  function SortByValue(s: seq<string>): seq<string> {
    if s == [] then [] else InsertByValue(s[0], SortByValue(s[1..]))
  }

  /** Insertion adds exactly the inserted key. */
  lemma {:induction false} InsertByValuePerm(k: string, s: seq<string>)
    ensures multiset(InsertByValue(k, s)) == multiset(s) + multiset{k}
  {
    if s != [] && DecimalValue(k) > DecimalValue(s[0]) {
      InsertByValuePerm(k, s[1..]);
      assert s == [s[0]] + s[1..];
    }
  }

  /** Insertion into an ascending list keeps it ascending. */
  lemma {:induction false} InsertByValueSorted(k: string, s: seq<string>)
    requires Ascending(s)
    ensures Ascending(InsertByValue(k, s))
  {
    if s != [] {
      if DecimalValue(k) <= DecimalValue(s[0]) {
        assert ([k] + s)[1..] == s;
      } else {
        var t := s[1..];
        InsertByValueSorted(k, t);
        var rest := InsertByValue(k, t);
        assert rest[0] == k || rest[0] == t[0];
        assert ([s[0]] + rest)[1..] == rest;
      }
    }
  }

  /** Sorting permutes the keys into ascending order. */
  lemma {:induction false} SortByValueSpec(s: seq<string>)
    ensures multiset(SortByValue(s)) == multiset(s)
    ensures Ascending(SortByValue(s))
  {
    if s != [] {
      SortByValueSpec(s[1..]);
      InsertByValuePerm(s[0], SortByValue(s[1..]));
      InsertByValueSorted(s[0], SortByValue(s[1..]));
      assert s == [s[0]] + s[1..];
    }
  }

  /** The order in which `Object.entries` lists the own keys created in order `keys`. */
  function EntryOrder(keys: seq<string>): seq<string> {
    SortByValue(IndexKeys(keys)) + NamedKeys(keys)
  }

  /** `Object.entries` lists every own key exactly once. */
  lemma EntryOrderPermutes(keys: seq<string>)
    requires Distinct(keys)
    ensures Distinct(EntryOrder(keys))
    ensures forall k :: k in EntryOrder(keys) <==> k in keys
  {
    var idx := IndexKeys(keys);
    var sorted := SortByValue(idx);
    FilterSpec(keys);
    SortByValueSpec(idx);
    DistinctByMultiset(idx, sorted);
    forall k ensures k in sorted <==> k in idx {
      assert k in sorted <==> k in multiset(sorted);
    }
    DistinctConcat(sorted, NamedKeys(keys));
  }

  lemma DistinctConcat(a: seq<string>, b: seq<string>)
    requires Distinct(a) && Distinct(b)
    requires forall x :: x in a ==> x !in b
    ensures Distinct(a + b)
  {
    forall i, j | 0 <= i < j < |a + b| ensures (a + b)[i] != (a + b)[j] {
      if j < |a| {
        assert (a + b)[i] == a[i] && (a + b)[j] == a[j];
      } else if i >= |a| {
        assert (a + b)[i] == b[i - |a|] && (a + b)[j] == b[j - |a|];
      } else {
        assert (a + b)[i] == a[i] && (a + b)[j] == b[j - |a|];
        assert a[i] in a;
      }
    }
  }

  /** Having no repetitions is a property of the multiset of a list. */
  lemma DistinctByMultiset(a: seq<string>, b: seq<string>)
    requires Distinct(a) && multiset(a) == multiset(b)
    ensures Distinct(b)
  {
    forall i, j | 0 <= i < j < |b| ensures b[i] != b[j] {
      if b[i] == b[j] {
        var x := b[i];
        assert b == b[..j] + [x] + b[j + 1..];
        assert b[..j][i] == x;
        assert multiset(b)[x] == multiset(b[..j])[x] + 1 + multiset(b[j + 1..])[x];
        assert multiset(b)[x] >= 2;
        DistinctCount(a, x);
      }
    }
  }

  /** In a list without repetitions every element occurs once. */
  lemma {:induction false} DistinctCount(a: seq<string>, x: string)
    requires Distinct(a)
    ensures multiset(a)[x] <= 1
  {
    if a != [] {
      DistinctCount(a[1..], x);
      assert a == [a[0]] + a[1..];
      if a[0] == x {
        assert x !in a[1..];
      }
    }
  }

  // ---------------------------------------------------------------------------
  // Counting

  /** `answers.filter((a) => a.question_id === qid)` */
  function ForQuestion(answers: seq<Answer>, qid: string): (r: seq<Answer>)
    ensures |r| <= |answers|
    ensures forall a :: a in r <==> a in answers && a.questionId == qid
  {
    if answers == [] then []
    else
      var init := ForQuestion(answers[..|answers| - 1], qid);
      var a := answers[|answers| - 1];
      assert forall x :: x in answers <==> x in answers[..|answers| - 1] || x == a;
      if a.questionId == qid then init + [a] else init
  }

  /** Filtering one more answer appends it when it belongs to the question. */
  lemma ForQuestionSnoc(xs: seq<Answer>, a: Answer, qid: string)
    ensures ForQuestion(xs + [a], qid) == ForQuestion(xs, qid) + (if a.questionId == qid then [a] else [])
  {
    assert (xs + [a])[..|xs|] == xs;
  }

  /**
   * The filter keeps the order of the answers: filtering a concatenation is
   * concatenating the filtered parts.
   */
  lemma {:induction false} ForQuestionConcat(xs: seq<Answer>, ys: seq<Answer>, qid: string)
    ensures ForQuestion(xs + ys, qid) == ForQuestion(xs, qid) + ForQuestion(ys, qid)
    decreases |ys|
  {
    if ys == [] {
      assert xs + ys == xs;
    } else {
      var init, y := ys[..|ys| - 1], ys[|ys| - 1];
      assert ys == init + [y];
      assert xs + ys == (xs + init) + [y];
      ForQuestionConcat(xs, init, qid);
      ForQuestionSnoc(xs + init, y, qid);
      ForQuestionSnoc(init, y, qid);
    }
  }

  /**
   * The filter keeps every answer to the question as often as it occurs (two
   * respondents choosing the same option give two equal rows) and no other.
   */
  lemma {:induction false} ForQuestionMultiset(answers: seq<Answer>, qid: string, a: Answer)
    ensures multiset(ForQuestion(answers, qid))[a] == if a.questionId == qid then multiset(answers)[a] else 0
    decreases |answers|
  {
    if answers != [] {
      var init, last := answers[..|answers| - 1], answers[|answers| - 1];
      assert answers == init + [last];
      ForQuestionMultiset(init, qid, a);
      ForQuestionSnoc(init, last, qid);
    }
  }

  /** A single answer survives the filter exactly when it belongs to the question. */
  lemma ForQuestionSingle(a: Answer, qid: string)
    ensures ForQuestion([a], qid) == if a.questionId == qid then [a] else []
  {
    assert [a][..0] == [];
  }

  /** Whether answer `a` is a vote for `key` of question `qid`. */
  predicate Votes(a: Answer, qid: string, key: string) {
    a.questionId == qid && Normalise(a.value) == key
  }

  /** The number of answers to question `qid` whose normalised value is `key`. */
  function Hits(answers: seq<Answer>, qid: string, key: string): nat {
    if answers == [] then 0
    else Hits(answers[..|answers| - 1], qid, key)
         + (if Votes(answers[|answers| - 1], qid, key) then 1 else 0)
  }

  /** The number of answers (all to one question) whose normalised value is `key`. */
  function Tally(qa: seq<Answer>, key: string): nat {
    if qa == [] then 0
    else Tally(qa[..|qa| - 1], key) + (if Normalise(qa[|qa| - 1].value) == key then 1 else 0)
  }

  /** The bars of `keys`, each with its number of votes. */
  function BarsFor(keys: seq<string>, answers: seq<Answer>, qid: string): (r: seq<Bar>)
    ensures |r| == |keys|
  {
    if keys == [] then []
    else [Bar(keys[0], Hits(answers, qid, keys[0]))] + BarsFor(keys[1..], answers, qid)
  }

  /** The `i`-th bar is the `i`-th key with its number of votes. */
  lemma {:induction false} BarsForAt(keys: seq<string>, answers: seq<Answer>, qid: string, i: nat)
    requires i < |keys|
    ensures BarsFor(keys, answers, qid)[i] == Bar(keys[i], Hits(answers, qid, keys[i]))
  {
    if i > 0 {
      BarsForAt(keys[1..], answers, qid, i - 1);
    }
  }

  /** Bars that agree with `BarsFor` one by one are `BarsFor`. */
  lemma BarsForByElements(keys: seq<string>, answers: seq<Answer>, qid: string, data: seq<Bar>)
    requires |data| == |keys|
    requires forall i :: 0 <= i < |keys| ==> data[i] == Bar(keys[i], Hits(answers, qid, keys[i]))
    ensures data == BarsFor(keys, answers, qid)
  {
    forall i | 0 <= i < |keys| ensures data[i] == BarsFor(keys, answers, qid)[i] {
      BarsForAt(keys, answers, qid, i);
    }
  }

  /** The labels of `BarsFor(keys, ...)` are `keys`. */
  lemma OptionsOfBarsFor(keys: seq<string>, answers: seq<Answer>, qid: string)
    ensures OptionsOf(BarsFor(keys, answers, qid)) == keys
  {
    forall i | 0 <= i < |keys| ensures OptionsOf(BarsFor(keys, answers, qid))[i] == keys[i] {
      BarsForAt(keys, answers, qid, i);
    }
  }

  /**
   * The bars of question `q` on the counted path: one per own key of
   * `optionCounts`, in `Object.entries` order, each counting the answers to `q`
   * whose normalised value is that key.
   */
  function Tabulate(q: Question, answers: seq<Answer>): seq<Bar> {
    BarsFor(EntryOrder(OwnKeys(Declared(q.options))), answers, q.id)
  }

  /** The bars of question `q` on the zero-responses path: one per declared label, duplicates kept. */
  function ZeroBars(q: Question): (r: seq<Bar>)
    ensures |r| == |Declared(q.options)|
    ensures forall i :: 0 <= i < |r| ==> r[i] == Bar(Declared(q.options)[i], 0)
  {
    var opts := Declared(q.options);
    seq(|opts|, i requires 0 <= i < |opts| => Bar(opts[i], 0))
  }

  /** The option labels of a list of bars. */
  function OptionsOf(bars: seq<Bar>): (r: seq<string>)
    ensures |r| == |bars| && forall i :: 0 <= i < |r| ==> r[i] == bars[i].option
  {
    seq(|bars|, i requires 0 <= i < |bars| => bars[i].option)
  }

  function SumCounts(bars: seq<Bar>): nat {
    if bars == [] then 0 else bars[0].count + SumCounts(bars[1..])
  }

  // ---------------------------------------------------------------------------
  // The counted path, as the source runs it

  /**
   * One element of `questions.map(...)` on the counted path: filter the answers
   * to `q`, create a zero counter per label, increment the counter of every
   * answer whose normalised value is an own key, and list the counters in
   * `Object.entries` order.
   */
  method CountQuestion(q: Question, answers: seq<Answer>) returns (data: seq<Bar>)
    ensures data == Tabulate(q, answers)
  {
    var questionAnswers := ForQuestion(answers, q.id);
    var keys, optionCounts := InitCounts(Declared(q.options));
    optionCounts := CountAnswers(questionAnswers, optionCounts);
    var order := EntryOrder(keys);
    OwnKeysSpec(Declared(q.options));
    EntryOrderPermutes(keys);
    data := ListEntries(order, optionCounts);
    forall m | 0 <= m < |order| ensures data[m] == Bar(order[m], Hits(answers, q.id, order[m])) {
      TallyOfFiltered(answers, q.id, order[m]);
    }
    BarsForByElements(order, answers, q.id, data);
  }

  /** `Object.entries(optionCounts).map(...)` once the entry order is known: one bar per key, with its counter. */
  method ListEntries(order: seq<string>, optionCounts: map<string, nat>) returns (data: seq<Bar>)
    requires forall k :: k in order ==> k in optionCounts
    ensures |data| == |order|
    ensures forall m :: 0 <= m < |order| ==> data[m] == Bar(order[m], optionCounts[order[m]])
  {
    data := [];
    var n := 0;
    while n < |order|
      invariant 0 <= n <= |order|
      invariant |data| == n
      invariant forall m :: 0 <= m < n ==> data[m] == Bar(order[m], optionCounts[order[m]])
    {
      data := data + [Bar(order[n], optionCounts[order[n]])];
      n := n + 1;
    }
  }

  /**
   * `q.options.forEach((opt) => { optionCounts[opt] = 0 })` on an empty object:
   * the own keys in creation order, each with counter 0.
   */
  method InitCounts(opts: seq<string>) returns (keys: seq<string>, optionCounts: map<string, nat>)
    ensures keys == OwnKeys(opts)
    ensures forall k :: k in optionCounts <==> k in keys
    ensures forall k :: k in optionCounts ==> optionCounts[k] == 0
  {
    keys := [];
    optionCounts := map[];
    var i := 0;
    while i < |opts|
      invariant 0 <= i <= |opts|
      invariant keys == OwnKeys(opts[..i])
      invariant forall k :: k in optionCounts <==> k in keys
      invariant forall k :: k in optionCounts ==> optionCounts[k] == 0
    {
      var opt := opts[i];
      assert opts[..i + 1][..i] == opts[..i];
      if opt != ProtoKey {
        if opt !in optionCounts {
          keys := keys + [opt];
        }
        optionCounts := optionCounts[opt := 0];
      }
      i := i + 1;
    }
    assert opts[..i] == opts;
  }

  /**
   * `questionAnswers.forEach(...)`: every answer whose normalised value is an own
   * key adds one to that key's counter; no key is added.
   */
  method CountAnswers(questionAnswers: seq<Answer>, counts: map<string, nat>) returns (optionCounts: map<string, nat>)
    ensures optionCounts.Keys == counts.Keys
    ensures forall k :: k in optionCounts ==> optionCounts[k] == counts[k] + Tally(questionAnswers, k)
  {
    optionCounts := counts;
    var j := 0;
    while j < |questionAnswers|
      invariant 0 <= j <= |questionAnswers|
      invariant optionCounts.Keys == counts.Keys
      invariant forall k :: k in optionCounts ==> optionCounts[k] == counts[k] + Tally(questionAnswers[..j], k)
    {
      var value := Normalise(questionAnswers[j].value);
      assert questionAnswers[..j + 1][..j] == questionAnswers[..j];
      if value in optionCounts {
        optionCounts := optionCounts[value := optionCounts[value] + 1];
      }
      j := j + 1;
    }
    assert questionAnswers[..j] == questionAnswers;
  }

  /** Filtering the answers to a question and then counting a value counts the votes. */
  lemma {:induction false} TallyOfFiltered(answers: seq<Answer>, qid: string, key: string)
    ensures Tally(ForQuestion(answers, qid), key) == Hits(answers, qid, key)
  {
    if answers != [] {
      var init := answers[..|answers| - 1];
      TallyOfFiltered(init, qid, key);
      var a := answers[|answers| - 1];
      if a.questionId == qid {
        assert (ForQuestion(init, qid) + [a])[..|ForQuestion(init, qid)|] == ForQuestion(init, qid);
      }
    }
  }

  /**
   * `questions.map(...)` on the counted path: one chart per question, in the
   * fetched order, carrying the question's text and its tabulation.
   */
  method ProcessQuestions(questions: seq<Question>, answers: seq<Answer>) returns (charts: seq<Chart>)
    ensures charts == ChartsOf(questions, answers)
  {
    charts := [];
    var i := 0;
    while i < |questions|
      invariant 0 <= i <= |questions|
      invariant charts == ChartsOf(questions[..i], answers)
    {
      var data := CountQuestion(questions[i], answers);
      assert questions[..i + 1][..i] == questions[..i];
      charts := charts + [Chart(questions[i].text, data)];
      i := i + 1;
    }
    assert questions[..i] == questions;
  }

  /** The charts of the counted path: one per question, in order. */
  function ChartsOf(questions: seq<Question>, answers: seq<Answer>): (r: seq<Chart>)
    ensures |r| == |questions|
    ensures forall i :: 0 <= i < |questions| ==> r[i].question == questions[i].text
  {
    if questions == [] then []
    else
      var n := |questions| - 1;
      ChartsOf(questions[..n], answers) + [Chart(questions[n].text, Tabulate(questions[n], answers))]
  }

  /** The `i`-th chart is the tabulation of the `i`-th question. */
  lemma {:induction false} ChartsOfAt(questions: seq<Question>, answers: seq<Answer>, i: nat)
    requires i < |questions|
    ensures ChartsOf(questions, answers)[i] == Chart(questions[i].text, Tabulate(questions[i], answers))
    decreases |questions|
  {
    var n := |questions| - 1;
    if i < n {
      ChartsOfAt(questions[..n], answers, i);
    }
  }

  // ---------------------------------------------------------------------------
  // Properties of the tabulation

  /**
   * Bars are never invented and never dropped, except that a repeated label
   * gives one bar and `__proto__` none: the bar labels are exactly the declared
   * labels other than `__proto__`, each once. Non-array option data gives no bar.
   */
  lemma TabulateLabels(q: Question, answers: seq<Answer>)
    ensures var o := OptionsOf(Tabulate(q, answers));
      Distinct(o) && |o| <= |Declared(q.options)|
      && (forall k :: k in o <==> k in Declared(q.options) && k != ProtoKey)
    ensures q.options.NotArray? ==> Tabulate(q, answers) == []
  {
    var keys := OwnKeys(Declared(q.options));
    OwnKeysSpec(Declared(q.options));
    EntryOrderPermutes(keys);
    OptionsOfBarsFor(EntryOrder(keys), answers, q.id);
    DistinctLength(EntryOrder(keys), keys);
  }

  /** A list without repetitions whose elements all occur in `b` is no longer than `b`. */
  lemma {:induction false} DistinctLength(a: seq<string>, b: seq<string>)
    requires Distinct(a) && Distinct(b)
    requires forall k :: k in a ==> k in b
    ensures |a| <= |b|
    decreases |a|
  {
    if a != [] {
      var x := a[|a| - 1];
      assert x in a;
      var p :| 0 <= p < |b| && b[p] == x;
      var b' := b[..p] + b[p + 1..];
      forall k | k in a[..|a| - 1] ensures k in b' {
        assert k in b && k != x;
        var m :| 0 <= m < |b| && b[m] == k;
        if m < p { assert b'[m] == k; } else { assert b'[m - 1] == k; }
      }
      forall i, j | 0 <= i < j < |b'| ensures b'[i] != b'[j] {
        var i0 := if i < p then i else i + 1;
        var j0 := if j < p then j else j + 1;
        assert b'[i] == b[i0] && b'[j] == b[j0];
      }
      DistinctLength(a[..|a| - 1], b');
    }
  }

  /** Each bar counts exactly the answers to its question whose normalised value is its label. */
  lemma TabulateCounts(q: Question, answers: seq<Answer>, i: nat)
    requires i < |Tabulate(q, answers)|
    ensures var b := Tabulate(q, answers)[i];
      b.count == Tally(ForQuestion(answers, q.id), b.option)
  {
    var order := EntryOrder(OwnKeys(Declared(q.options)));
    BarsForAt(order, answers, q.id, i);
    TallyOfFiltered(answers, q.id, order[i]);
  }

  /** Bars of array-index labels come first, in ascending numeric order; the other labels keep declaration order. */
  lemma TabulateOrder(q: Question, answers: seq<Answer>)
    ensures var o := OptionsOf(Tabulate(q, answers));
      (forall i, j :: 0 <= i < j < |o| && IsArrayIndex(o[j]) ==>
         IsArrayIndex(o[i]) && DecimalValue(o[i]) <= DecimalValue(o[j]))
      && NamedKeys(o) == NamedKeys(OwnKeys(Declared(q.options)))
  {
    var keys := OwnKeys(Declared(q.options));
    var sorted := SortByValue(IndexKeys(keys));
    var o := OptionsOf(Tabulate(q, answers));
    OptionsOfBarsFor(EntryOrder(keys), answers, q.id);
    assert o == sorted + NamedKeys(keys);
    FilterSpec(keys);
    SortByValueSpec(IndexKeys(keys));
    forall k | k in sorted ensures IsArrayIndex(k) {
      assert k in multiset(sorted);
    }
    NamedKeysAppend(sorted, NamedKeys(keys));
    NamedKeysOfIndices(sorted);
    NamedKeysIdempotent(keys);
    forall i, j | 0 <= i < j < |o| && IsArrayIndex(o[j])
      ensures IsArrayIndex(o[i]) && DecimalValue(o[i]) <= DecimalValue(o[j])
    {
      if j < |sorted| {
        assert o[i] == sorted[i] && o[j] == sorted[j];
        assert sorted[i] in sorted;
        AscendingPairwise(sorted, i, j);
      }
    }
  }

  lemma {:induction false} NamedKeysAppend(a: seq<string>, b: seq<string>)
    ensures NamedKeys(a + b) == NamedKeys(a) + NamedKeys(b)
  {
    if a == [] {
      assert a + b == b;
    } else {
      assert (a + b)[0] == a[0];
      assert (a + b)[1..] == a[1..] + b;
      NamedKeysAppend(a[1..], b);
    }
  }

  lemma {:induction false} NamedKeysOfIndices(a: seq<string>)
    requires forall k :: k in a ==> IsArrayIndex(k)
    ensures NamedKeys(a) == []
  {
    if a != [] {
      NamedKeysOfIndices(a[1..]);
    }
  }

  lemma {:induction false} NamedKeysIdempotent(a: seq<string>)
    ensures NamedKeys(NamedKeys(a)) == NamedKeys(a)
  {
    if a != [] {
      NamedKeysIdempotent(a[1..]);
      if IsArrayIndex(a[0]) {
        assert NamedKeys(a) == NamedKeys(a[1..]);
      } else {
        assert NamedKeys(a) == [a[0]] + NamedKeys(a[1..]);
        assert NamedKeys(a)[1..] == NamedKeys(a[1..]);
      }
    }
  }

  /** `Hits` adds up over concatenation. */
  lemma {:induction false} HitsAppend(a: seq<Answer>, b: seq<Answer>, qid: string, key: string)
    ensures Hits(a + b, qid, key) == Hits(a, qid, key) + Hits(b, qid, key)
    decreases |b|
  {
    if b == [] {
      assert a + b == a;
    } else {
      var b' := b[..|b| - 1];
      assert (a + b)[..|a + b| - 1] == a + b';
      HitsAppend(a, b', qid, key);
    }
  }

  /** Removing the row at `p` removes its vote, if any. */
  lemma HitsRemove(b: seq<Answer>, p: nat, qid: string, key: string)
    requires p < |b|
    ensures Hits(b, qid, key) == Hits(b[..p] + b[p + 1..], qid, key) + (if Votes(b[p], qid, key) then 1 else 0)
  {
    var x := b[p];
    assert b == b[..p] + ([x] + b[p + 1..]);
    HitsAppend(b[..p], [x] + b[p + 1..], qid, key);
    HitsAppend([x], b[p + 1..], qid, key);
    HitsAppend(b[..p], b[p + 1..], qid, key);
    assert [x][..0] == [];
  }

  lemma MultisetRemove(b: seq<Answer>, p: nat)
    requires p < |b|
    ensures multiset(b[..p] + b[p + 1..]) == multiset(b) - multiset{b[p]}
  {
    assert b == b[..p] + [b[p]] + b[p + 1..];
  }

  /** `Hits` depends only on the multiset of answers. */
  lemma {:induction false} HitsPermutation(a: seq<Answer>, b: seq<Answer>, qid: string, key: string)
    requires multiset(a) == multiset(b)
    ensures Hits(a, qid, key) == Hits(b, qid, key)
    decreases |a|
  {
    if a == [] {
      assert |b| == |multiset(b)| == 0;
    } else {
      var x := a[|a| - 1];
      assert x in multiset(b);
      var p :| 0 <= p < |b| && b[p] == x;
      MultisetRemove(a, |a| - 1);
      MultisetRemove(b, p);
      assert a[..|a| - 1] + a[|a|..] == a[..|a| - 1];
      HitsPermutation(a[..|a| - 1], b[..p] + b[p + 1..], qid, key);
      HitsRemove(b, p, qid, key);
    }
  }

  /** Permuting the answer rows does not change any question's bars. */
  lemma TabulatePermutation(q: Question, a: seq<Answer>, b: seq<Answer>)
    requires multiset(a) == multiset(b)
    ensures Tabulate(q, a) == Tabulate(q, b)
  {
    var keys := EntryOrder(OwnKeys(Declared(q.options)));
    forall i | 0 <= i < |keys| ensures BarsFor(keys, a, q.id)[i] == Bar(keys[i], Hits(b, q.id, keys[i])) {
      BarsForAt(keys, a, q.id, i);
      HitsPermutation(a, b, q.id, keys[i]);
    }
    BarsForByElements(keys, b, q.id, BarsFor(keys, a, q.id));
  }

  /**
   * One more answer row `x`, anywhere in the list, adds one to the bar whose
   * label is its normalised value when `x` answers `q` and that label has a bar,
   * and changes nothing else; in particular it never creates a bar.
   */
  lemma TabulateOneMore(q: Question, a: seq<Answer>, b: seq<Answer>, x: Answer)
    ensures var before, after := Tabulate(q, a + b), Tabulate(q, a + [x] + b);
      |after| == |before|
      && forall i :: 0 <= i < |after| ==>
           after[i].option == before[i].option
           && after[i].count == before[i].count + (if Votes(x, q.id, before[i].option) then 1 else 0)
  {
    var keys := EntryOrder(OwnKeys(Declared(q.options)));
    forall i | 0 <= i < |keys|
      ensures BarsFor(keys, a + [x] + b, q.id)[i].option == BarsFor(keys, a + b, q.id)[i].option == keys[i]
      ensures BarsFor(keys, a + [x] + b, q.id)[i].count
           == BarsFor(keys, a + b, q.id)[i].count + (if Votes(x, q.id, keys[i]) then 1 else 0)
    {
      var k := keys[i];
      BarsForAt(keys, a + [x] + b, q.id, i);
      BarsForAt(keys, a + b, q.id, i);
      HitsAppend(a + [x], b, q.id, k);
      HitsAppend(a, [x], q.id, k);
      HitsAppend(a, b, q.id, k);
      assert [x][..0] == [];
    }
  }

  /** Rows answering other questions, or whose value is no own key, change no bar. */
  lemma TabulateIgnores(q: Question, a: seq<Answer>, b: seq<Answer>, x: Answer)
    requires x.questionId != q.id || Normalise(x.value) !in Declared(q.options) || Normalise(x.value) == ProtoKey
    ensures Tabulate(q, a + [x] + b) == Tabulate(q, a + b)
  {
    TabulateOneMore(q, a, b, x);
    TabulateLabels(q, a + b);
    var before, after := Tabulate(q, a + b), Tabulate(q, a + [x] + b);
    forall i | 0 <= i < |after| ensures after[i] == before[i] {
      assert before[i].option in OptionsOf(before);
    }
  }

  /** A null or absent answer value is a vote for the label `''`, and for no other label. */
  lemma NullAnswer(q: Question, a: seq<Answer>, b: seq<Answer>)
    ensures var before, after := Tabulate(q, a + b), Tabulate(q, a + [Answer(q.id, None)] + b);
      |after| == |before|
      && forall i :: 0 <= i < |after| ==>
           after[i].option == before[i].option
           && after[i].count == before[i].count + (if before[i].option == "" then 1 else 0)
  {
    TabulateOneMore(q, a, b, Answer(q.id, None));
  }

  // Sum of the counts

  /** The votes for each of `keys`, added up. */
  function SumHits(keys: seq<string>, answers: seq<Answer>, qid: string): nat {
    if keys == [] then 0 else Hits(answers, qid, keys[0]) + SumHits(keys[1..], answers, qid)
  }

  /** How many of `keys` answer `x` is a vote for. */
  function VotedKeys(keys: seq<string>, x: Answer, qid: string): nat {
    if keys == [] then 0 else (if Votes(x, qid, keys[0]) then 1 else 0) + VotedKeys(keys[1..], x, qid)
  }

  lemma {:induction false} VotedKeysAtMostOne(keys: seq<string>, x: Answer, qid: string)
    requires Distinct(keys)
    ensures VotedKeys(keys, x, qid) <= 1
    ensures x.questionId != qid ==> VotedKeys(keys, x, qid) == 0
  {
    if keys != [] {
      VotedKeysAtMostOne(keys[1..], x, qid);
      if Votes(x, qid, keys[0]) {
        VotedKeysNone(keys[1..], x, qid);
      }
    }
  }

  lemma {:induction false} VotedKeysNone(keys: seq<string>, x: Answer, qid: string)
    requires Normalise(x.value) !in keys
    ensures VotedKeys(keys, x, qid) == 0
  {
    if keys != [] {
      VotedKeysNone(keys[1..], x, qid);
    }
  }

  lemma {:induction false} SumHitsSnoc(keys: seq<string>, a: seq<Answer>, x: Answer, qid: string)
    ensures SumHits(keys, a + [x], qid) == SumHits(keys, a, qid) + VotedKeys(keys, x, qid)
  {
    if keys != [] {
      SumHitsSnoc(keys[1..], a, x, qid);
      assert (a + [x])[..|a + [x]| - 1] == a;
    }
  }

  lemma {:induction false} SumHitsEmpty(keys: seq<string>, qid: string)
    ensures SumHits(keys, [], qid) == 0
  {
    if keys != [] {
      SumHitsEmpty(keys[1..], qid);
    }
  }

  lemma {:induction false} SumHitsBound(keys: seq<string>, answers: seq<Answer>, qid: string)
    requires Distinct(keys)
    ensures SumHits(keys, answers, qid) <= |ForQuestion(answers, qid)|
    decreases |answers|
  {
    if answers == [] {
      SumHitsEmpty(keys, qid);
    } else {
      var init := answers[..|answers| - 1];
      var x := answers[|answers| - 1];
      assert answers == init + [x];
      SumHitsBound(keys, init, qid);
      SumHitsSnoc(keys, init, x, qid);
      VotedKeysAtMostOne(keys, x, qid);
    }
  }

  lemma {:induction false} SumCountsOfBars(keys: seq<string>, answers: seq<Answer>, qid: string)
    ensures SumCounts(BarsFor(keys, answers, qid)) == SumHits(keys, answers, qid)
  {
    if keys != [] {
      SumCountsOfBars(keys[1..], answers, qid);
      assert BarsFor(keys, answers, qid)[1..] == BarsFor(keys[1..], answers, qid);
    }
  }

  /** A question's counts add up to at most the number of answers to it. */
  lemma TabulateSumBound(q: Question, answers: seq<Answer>)
    ensures SumCounts(Tabulate(q, answers)) <= |ForQuestion(answers, q.id)|
  {
    var keys := EntryOrder(OwnKeys(Declared(q.options)));
    OwnKeysSpec(Declared(q.options));
    EntryOrderPermutes(OwnKeys(Declared(q.options)));
    SumCountsOfBars(keys, answers, q.id);
    SumHitsBound(keys, answers, q.id);
  }

  /**
   * With no answer rows the counted path gives zero bars over the same labels as
   * the zero-responses path, but one per distinct label in entry order.
   */
  lemma NoAnswersAllZero(q: Question)
    ensures forall i :: 0 <= i < |Tabulate(q, [])| ==> Tabulate(q, [])[i].count == 0
    ensures forall k :: k in OptionsOf(Tabulate(q, [])) <==> k in OptionsOf(ZeroBars(q)) && k != ProtoKey
  {
    var keys := EntryOrder(OwnKeys(Declared(q.options)));
    forall i | 0 <= i < |keys| ensures Tabulate(q, [])[i].count == 0 {
      BarsForAt(keys, [], q.id, i);
    }
    TabulateLabels(q, []);
    assert OptionsOf(ZeroBars(q)) == Declared(q.options);
  }

  // ---------------------------------------------------------------------------
  // Worked examples

  /**
   * Labels `A`, `B` and the answers `A`, `A`, `B`, `X` and null: two votes for
   * `A`, one for `B`; `X` and null add nothing and create no bar.
   */
  lemma ExampleCounts()
    ensures var q := Question("q1", "Color", Labels(["A", "B"]));
      Tabulate(q, [Answer("q1", Some("A")), Answer("q1", Some("A")), Answer("q1", Some("B")),
                   Answer("q1", Some("X")), Answer("q1", None)])
      == [Bar("A", 2), Bar("B", 1)]
  {
    assert !IsArrayIndex("A") && !IsArrayIndex("B");
    TwoLabels(Question("q1", "Color", Labels(["A", "B"])), "A", "B", "X");
  }

  /**
   * Two named labels `a`, `b` and the answers `a`, `a`, `b`, `x`, null, where `x`
   * and `''` are neither label: the bars are `(a, 2)` and `(b, 1)`.
   */
  lemma TwoLabels(q: Question, a: string, b: string, x: string)
    requires q.options == Labels([a, b])
    requires a != b && a != ProtoKey && b != ProtoKey && !IsArrayIndex(a) && !IsArrayIndex(b)
    requires x != a && x != b && a != "" && b != ""
    ensures Tabulate(q, [Answer(q.id, Some(a)), Answer(q.id, Some(a)), Answer(q.id, Some(b)),
                         Answer(q.id, Some(x)), Answer(q.id, None)])
            == [Bar(a, 2), Bar(b, 1)]
  {
    var rows := [Answer(q.id, Some(a)), Answer(q.id, Some(a)), Answer(q.id, Some(b)),
                 Answer(q.id, Some(x)), Answer(q.id, None)];
    FiveRowsHits(q.id, a, b, x);
    TwoNamedKeys(a, b);
    BarsForTwo(a, b, rows, q.id);
  }

  /** The votes of the rows `a`, `a`, `b`, `x`, null: two for `a`, one for `b`. */
  lemma FiveRowsHits(id: string, a: string, b: string, x: string)
    requires a != b && x != a && x != b && a != "" && b != ""
    ensures var rows := [Answer(id, Some(a)), Answer(id, Some(a)), Answer(id, Some(b)),
                         Answer(id, Some(x)), Answer(id, None)];
      Hits(rows, id, a) == 2 && Hits(rows, id, b) == 1
  {
    var r1 := [Answer(id, Some(a))];
    var r2 := r1 + [Answer(id, Some(a))];
    var r3 := r2 + [Answer(id, Some(b))];
    var r4 := r3 + [Answer(id, Some(x))];
    var r5 := r4 + [Answer(id, None)];
    HitsSnoc([], Answer(id, Some(a)), id, a);
    HitsSnoc([], Answer(id, Some(a)), id, b);
    assert [] + [Answer(id, Some(a))] == r1;
    HitsSnoc(r1, Answer(id, Some(a)), id, a);
    HitsSnoc(r1, Answer(id, Some(a)), id, b);
    HitsSnoc(r2, Answer(id, Some(b)), id, a);
    HitsSnoc(r2, Answer(id, Some(b)), id, b);
    HitsSnoc(r3, Answer(id, Some(x)), id, a);
    HitsSnoc(r3, Answer(id, Some(x)), id, b);
    HitsSnoc(r4, Answer(id, None), id, a);
    HitsSnoc(r4, Answer(id, None), id, b);
    assert r5 == [Answer(id, Some(a)), Answer(id, Some(a)), Answer(id, Some(b)),
                  Answer(id, Some(x)), Answer(id, None)];
  }

  /** One more row adds its vote, if any. */
  lemma HitsSnoc(s: seq<Answer>, x: Answer, qid: string, key: string)
    ensures Hits(s + [x], qid, key) == Hits(s, qid, key) + (if Votes(x, qid, key) then 1 else 0)
  {
    assert (s + [x])[..|s|] == s;
  }

  /** Two different named labels are two keys, listed in declaration order. */
  lemma TwoNamedKeys(a: string, b: string)
    requires a != b && a != ProtoKey && b != ProtoKey && !IsArrayIndex(a) && !IsArrayIndex(b)
    ensures EntryOrder(OwnKeys([a, b])) == [a, b]
  {
    var keys := [a, b];
    assert OwnKeys([a]) == [a] by {
      assert [a][..0] == [];
      assert [] + [a] == [a];
    }
    assert OwnKeys(keys) == keys by {
      assert keys[..1] == [a];
      assert [a] + [b] == keys;
    }
    assert IndexKeys([b]) == [] && NamedKeys([b]) == [b] by {
      assert [b][1..] == [];
      assert [b] + [] == [b];
    }
    assert keys[1..] == [b];
    assert IndexKeys(keys) == IndexKeys([b]);
    assert NamedKeys(keys) == [a] + NamedKeys([b]);
  }

  /** The bars of two keys. */
  lemma BarsForTwo(a: string, b: string, answers: seq<Answer>, qid: string)
    ensures BarsFor([a, b], answers, qid) == [Bar(a, Hits(answers, qid, a)), Bar(b, Hits(answers, qid, b))]
  {
    assert [a, b][1..] == [b] && [b][1..] == [];
  }

  /**
   * Labels `b`, `10`, `2`: `Object.entries` lists the array-index keys first in
   * ascending numeric order, so the bars are `2`, `10`, `b`.
   */
  lemma ExampleEntryOrder(answers: seq<Answer>)
    ensures OptionsOf(Tabulate(Question("q1", "Talla", Labels(["b", "10", "2"])), answers)) == ["2", "10", "b"]
  {
    var opts := ["b", "10", "2"];
    assert OwnKeys(opts) == opts by {
      var p2, p1 := opts[..2], opts[..1];
      assert p2 == ["b", "10"] && p2[..1] == p1 && p1 == ["b"] && p1[..0] == [];
      assert OwnKeys(p1) == p1;
      assert OwnKeys(p2) == p2;
    }
    assert DecimalValue("10") == 10 by {
      assert "10"[..1] == "1" && "1"[..0] == [];
    }
    assert DecimalValue("2") == 2 by {
      assert "2"[..0] == [];
    }
    assert !IsArrayIndex("b") && IsArrayIndex("10") && IsArrayIndex("2");
    assert opts[1..] == ["10", "2"] && opts[1..][1..] == ["2"] && opts[1..][1..][1..] == [];
    assert IndexKeys(opts) == ["10", "2"];
    assert NamedKeys(opts) == ["b"];
    assert ["10", "2"][1..] == ["2"] && ["2"][1..] == [];
    assert SortByValue(["2"]) == ["2"];
    assert SortByValue(["10", "2"]) == ["2", "10"];
    assert EntryOrder(opts) == ["2", "10", "b"];
    OptionsOfBarsFor(EntryOrder(opts), answers, "q1");
  }
}
