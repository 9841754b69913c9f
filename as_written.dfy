/**
 * The counted path of the survey chart exactly as written, `in` test included.
 *
 * `value in optionCounts` holds for own keys and also for every name that a plain
 * object inherits from `Object.prototype`. For such a name that is not an own key,
 * `optionCounts[value]++` reads the inherited function, converts it to `NaN`, adds
 * one (still `NaN`) and stores the result as a NEW own property: the chart gains a
 * bar that no question declared, with a count that is not a number. The name
 * `__proto__` is the exception: storing a number through its setter is ignored.
 *
 * `Tabulation.Tabulate` is the corrected behaviour (own keys only); this module
 * shows where the two part ways and proves that they agree everywhere else.
 */
module AsWritten {
  import opened Js
  import opened Tabulation

  /** A counter value: a number, or `NaN` once an inherited function has been incremented. */
  datatype Count = Num(n: nat) | NaN

  /** One entry of `Object.entries(optionCounts)` as written. */
  datatype RawBar = RawBar(option: string, count: Count)

  /** The names that every plain object inherits from `Object.prototype`. */
  const InheritedNames: set<string> := {
    "constructor", "__defineGetter__", "__defineSetter__", "hasOwnProperty",
    "__lookupGetter__", "__lookupSetter__", "isPrototypeOf", "propertyIsEnumerable",
    "toString", "valueOf", "__proto__", "toLocaleString"
  }

  /** The object `optionCounts`: its own keys in creation order and their values. */
  datatype Counter = Counter(keys: seq<string>, counts: map<string, Count>)

  /** The own keys are listed once each and are exactly the keys that hold a value. */
  predicate Tracks(c: Counter) {
    Distinct(c.keys)
    && (forall k :: k in c.counts ==> k in c.keys)
    && (forall k :: k in c.keys ==> k in c.counts)
  }

  /** `v in optionCounts`, inherited names included. */
  predicate InAsWritten(c: Counter, v: string) {
    v in c.counts || v in InheritedNames
  }

  /** Whether `optionCounts[v]++` creates a new own property `v`. */
  predicate CreatesBucket(keys: seq<string>, v: string) {
    v !in keys && v in InheritedNames && v != ProtoKey
  }

  /** `x++` on a number value. */
  function Bump(c: Count): Count {
    match c
    case Num(n) => Num(n + 1)
    case NaN => NaN
  }

  /** `optionCounts` after the initialisation loop over `opts`. */
  function InitCounter(opts: seq<string>): (c: Counter)
    ensures Tracks(c) && c.keys == OwnKeys(opts)
  {
    OwnKeysSpec(opts);
    Counter(OwnKeys(opts), map k | k in OwnKeys(opts) :: Num(0))
  }

  /** `optionCounts` after counting the answers `qa`, as written. */
  function CountAsWritten(qa: seq<Answer>, init: Counter): (c: Counter)
    requires Tracks(init)
    ensures Tracks(c)
    ensures |init.keys| <= |c.keys| && c.keys[..|init.keys|] == init.keys
    ensures forall i :: |init.keys| <= i < |c.keys| ==> c.keys[i] in InheritedNames && c.counts[c.keys[i]] == NaN
  {
    if qa == [] then init
    else
      var c := CountAsWritten(qa[..|qa| - 1], init);
      var v := Normalise(qa[|qa| - 1].value);
      if v in c.counts then Counter(c.keys, c.counts[v := Bump(c.counts[v])])
      else if InAsWritten(c, v) && v != ProtoKey then Counter(c.keys + [v], c.counts[v := NaN])
      else c
  }

  /** The `data` list of question `q` on the counted path, as written. */
  function TabulateAsWritten(q: Question, answers: seq<Answer>): (r: seq<RawBar>)
    ensures forall i :: 0 <= i < |r| ==>
      r[i].option in OwnKeys(Declared(q.options)) || (r[i].option in InheritedNames && r[i].count == NaN)
    ensures forall k :: k in OwnKeys(Declared(q.options)) ==> exists i :: 0 <= i < |r| && r[i].option == k
  {
    var init := InitCounter(Declared(q.options));
    var c := CountAsWritten(ForQuestion(answers, q.id), init);
    var order := EntryOrder(c.keys);
    EntryOrderPermutes(c.keys);
    var r := seq(|order|, i requires 0 <= i < |order| => RawBar(order[i], c.counts[order[i]]));
    assert forall i :: 0 <= i < |r| ==>
      r[i].option in OwnKeys(Declared(q.options)) || (r[i].option in InheritedNames && r[i].count == NaN) by {
      forall i | 0 <= i < |r|
        ensures r[i].option in OwnKeys(Declared(q.options)) || (r[i].option in InheritedNames && r[i].count == NaN)
      {
        var k := order[i];
        assert k in c.keys;
        var j :| 0 <= j < |c.keys| && c.keys[j] == k;
        if j < |init.keys| {
          assert c.keys[..|init.keys|][j] == k;
        }
      }
    }
    assert forall k :: k in OwnKeys(Declared(q.options)) ==> exists i :: 0 <= i < |r| && r[i].option == k by {
      forall k | k in OwnKeys(Declared(q.options)) ensures exists i :: 0 <= i < |r| && r[i].option == k {
        var j :| 0 <= j < |init.keys| && init.keys[j] == k;
        assert c.keys[..|init.keys|][j] == k;
        assert k in order;
        var i :| 0 <= i < |order| && order[i] == k;
        assert r[i].option == k;
      }
    }
    r
  }

  /** The corrected bars, seen as written values. */
  function Lift(bars: seq<Bar>): (r: seq<RawBar>)
    ensures |r| == |bars|
    ensures forall i :: 0 <= i < |r| ==> r[i] == RawBar(bars[i].option, Num(bars[i].count))
  {
    seq(|bars|, i requires 0 <= i < |bars| => RawBar(bars[i].option, Num(bars[i].count)))
  }

  /**
   * A free-text question (no labels) answered `"constructor"`: the code as written
   * shows one bar `constructor` with count `NaN`; the corrected tabulation shows none.
   */
  lemma InheritedNameCreatesBar()
    ensures var q := Question("q1", "Comentarios", Labels([]));
      var answers := [Answer("q1", Some("constructor"))];
      TabulateAsWritten(q, answers) == [RawBar("constructor", NaN)]
      && Tabulate(q, answers) == []
  {
    assert "constructor" in InheritedNames;
    assert !IsArrayIndex("constructor") by { assert !IsDigit("constructor"[0]); }
    InheritedAnswerCreatesBar(Question("q1", "Comentarios", Labels([])), "constructor");
  }

  /**
   * The general case: a question without labels, answered once with an inherited
   * name `v` other than `__proto__` (and not an array index), gets the single bar
   * `v` with count `NaN` as written, and no bar once corrected.
   */
  lemma InheritedAnswerCreatesBar(q: Question, v: string)
    requires Declared(q.options) == []
    requires v in InheritedNames && v != ProtoKey && !IsArrayIndex(v)
    ensures TabulateAsWritten(q, [Answer(q.id, Some(v))]) == [RawBar(v, NaN)]
    ensures Tabulate(q, [Answer(q.id, Some(v))]) == []
  {
    var answers := [Answer(q.id, Some(v))];
    assert answers[..0] == [];
    assert ForQuestion(answers, q.id) == answers;
    var c := CountAsWritten(answers, InitCounter([]));
    OneInheritedAnswer(answers[0], InitCounter([]));
    assert c.keys == [v] && c.counts == map[v := NaN];
    SingleNamedKey(v);
  }

  /** On an object without own keys, an answer with an inherited name creates its `NaN` bucket. */
  lemma OneInheritedAnswer(a: Answer, init: Counter)
    requires init == InitCounter([])
    requires Normalise(a.value) in InheritedNames && Normalise(a.value) != ProtoKey
    ensures CountAsWritten([a], init) == Counter([Normalise(a.value)], map[Normalise(a.value) := NaN])
  {
    assert [a][..0] == [];
    assert init.keys == [] && init.counts == map[];
    assert [] + [Normalise(a.value)] == [Normalise(a.value)];
  }

  /** A single key that is not an array index is listed as it is. */
  lemma SingleNamedKey(v: string)
    requires !IsArrayIndex(v)
    ensures EntryOrder([v]) == [v]
  {
    assert [v][1..] == [];
    assert IndexKeys([v]) == [] && NamedKeys([v]) == [v];
  }

  /**
   * When no answer creates a bucket, counting as written keeps the own keys of the
   * initialisation loop and gives each the number of answers whose normalised value
   * is that key.
   */
  lemma {:induction false} CountAsWrittenExact(qa: seq<Answer>, opts: seq<string>)
    requires forall i :: 0 <= i < |qa| ==> !CreatesBucket(OwnKeys(opts), Normalise(qa[i].value))
    ensures CountAsWritten(qa, InitCounter(opts))
         == Counter(OwnKeys(opts), map k | k in OwnKeys(opts) :: Num(Tally(qa, k)))
  {
    if qa != [] {
      var init := qa[..|qa| - 1];
      assert forall i :: 0 <= i < |init| ==> init[i] == qa[i];
      CountAsWrittenExact(init, opts);
      TallyMapStep(OwnKeys(opts), qa);
    }
  }

  /** One more answer adds one to the counter of its value, if that is a key, and nothing else. */
  lemma TallyMapStep(keys: seq<string>, qa: seq<Answer>)
    requires qa != []
    ensures var v := Normalise(qa[|qa| - 1].value);
      var before := map k | k in keys :: Num(Tally(qa[..|qa| - 1], k));
      var after := map k | k in keys :: Num(Tally(qa, k));
      (v in keys ==> before[v := Bump(before[v])] == after) && (v !in keys ==> before == after)
  {
    var v := Normalise(qa[|qa| - 1].value);
    var before := map k | k in keys :: Num(Tally(qa[..|qa| - 1], k));
    var after := map k | k in keys :: Num(Tally(qa, k));
    forall k | k in keys
      ensures after[k] == if k == v then Bump(before[k]) else before[k]
    {
    }
    if v in keys {
      assert before[v := Bump(before[v])] == after;
    } else {
      assert before == after;
    }
  }

  /**
   * When no answer to `q` is an inherited name outside its own keys, the code as
   * written and the corrected tabulation give the same bars with the same counts.
   */
  lemma TabulateAsWrittenAgrees(q: Question, answers: seq<Answer>)
    requires forall a :: a in answers && a.questionId == q.id ==>
      !CreatesBucket(OwnKeys(Declared(q.options)), Normalise(a.value))
    ensures TabulateAsWritten(q, answers) == Lift(Tabulate(q, answers))
  {
    var opts := Declared(q.options);
    var qa := ForQuestion(answers, q.id);
    forall i | 0 <= i < |qa| ensures !CreatesBucket(OwnKeys(opts), Normalise(qa[i].value)) {
      assert qa[i] in qa;
    }
    CountAsWrittenExact(qa, opts);
    var order := EntryOrder(OwnKeys(opts));
    OwnKeysSpec(opts);
    EntryOrderPermutes(OwnKeys(opts));
    var raw := TabulateAsWritten(q, answers);
    var lifted := Lift(Tabulate(q, answers));
    forall i | 0 <= i < |order| ensures raw[i] == lifted[i] {
      BarsForAt(order, answers, q.id, i);
      TallyOfFiltered(answers, q.id, order[i]);
    }
  }
}
