/**
 * Creating a survey: the public slug derived from the title, and the submit
 * handler that checks for a user, inserts the survey and moves on to its
 * question editor.
 *
 * `toLowerCase().normalize('NFD')` needs the Unicode tables; the model takes it
 * as a function `fold`. `Math.random().toString(36)` is taken as the string it
 * produced.
 */
module SurveyCreate {
  import opened Js

  // ---------------------------------------------------------------------------
  // slugify

  /** `[a-z0-9]` */
  predicate IsAlnum(c: char) {
    ('a' <= c <= 'z') || ('0' <= c <= '9')
  }

  /** `[\u0300-\u036f]`: the combining diacritical marks that NFD splits off. */
  predicate IsMark(c: char) {
    '\U{0300}' <= c <= '\U{036F}'
  }

  /** `.replace(/[\u0300-\u036f]/g, '')` */
  function StripMarks(s: string): string {
    if s == [] then []
    else (if IsMark(s[0]) then [] else [s[0]]) + StripMarks(s[1..])
  }

  /** What is left of `s` after its leading run of characters outside `[a-z0-9]`. */
  function SkipRun(s: string): (r: string)
    ensures |r| <= |s|
    ensures r == [] || IsAlnum(r[0])
  {
    if s == [] || IsAlnum(s[0]) then s else SkipRun(s[1..])
  }

  /** `.replace(/[^a-z0-9]+/g, '-')`: each maximal run outside `[a-z0-9]` becomes one `-`. */
  function Collapse(s: string): string
    decreases |s|
  {
    if s == [] then []
    else if IsAlnum(s[0]) then [s[0]] + Collapse(s[1..])
    else "-" + Collapse(SkipRun(s[1..]))
  }

  /** `.replace(/(^-|-$)+/g, '')` on a string without `--`: one leading and one trailing `-` go. */
  function TrimDashes(s: string): string {
    var a := if s != [] && s[0] == '-' then s[1..] else s;
    if a != [] && a[|a| - 1] == '-' then a[..|a| - 1] else a
  }

  /** The slug base of an already folded title. */
  function BaseOfFolded(t: string): string {
    TrimDashes(Collapse(StripMarks(t)))
  }

  /** The slug base of a title. */
  function SlugBase(title: string, fold: string -> string): string {
    BaseOfFolded(fold(title))
  }

  /**
   * What `Math.random().toString(36)` can give for a number in [0, 1): `"0"` for
   * zero, otherwise `"0."` followed by base-36 digits, which are `[0-9a-z]`.
   */
  predicate Base36Fraction(random: string) {
    random == "0"
    || (|random| > 2 && random[..2] == "0." && forall i :: 2 <= i < |random| ==> IsAlnum(random[i]))
  }

  /**
   * `slugify(title || 'encuesta')`, with `random` the result of
   * `Math.random().toString(36)`: the clean base, a `-`, and the characters 2 to
   * 6 of `random`, so at most 5 base-36 digits; the whole slug is in `[a-z0-9-]`.
   */
  function Slugify(title: string, fold: string -> string, random: string): (slug: string)
    ensures var base := SlugBase(if title == "" then "encuesta" else title, fold);
      |base| < |slug| <= |base| + 6 && slug[..|base|] == base && slug[|base|] == '-'
      && CleanBase(base) && slug[|base| + 1..] == Slice(random, 2, 7)
    ensures Base36Fraction(random) ==> SlugChars(slug)
  {
    var base := SlugBase(if title == "" then "encuesta" else title, fold);
    SlugBaseClean(fold(if title == "" then "encuesta" else title));
    base + "-" + Slice(random, 2, 7)
  }

  // The properties of the base

  predicate SlugChars(s: string) {
    forall i :: 0 <= i < |s| ==> IsAlnum(s[i]) || s[i] == '-'
  }

  predicate NoDoubleDash(s: string) {
    forall i :: 0 <= i < |s| - 1 ==> !(s[i] == '-' && s[i + 1] == '-')
  }

  /** A clean slug base: only `[a-z0-9-]`, no `--`, no `-` at either end. */
  predicate CleanBase(s: string) {
    SlugChars(s) && NoDoubleDash(s) && (s != [] ==> s[0] != '-' && s[|s| - 1] != '-')
  }

  /** The `[a-z0-9]` characters of `s`, in order. */
  function Alnums(s: string): string {
    if s == [] then []
    else (if IsAlnum(s[0]) then [s[0]] else []) + Alnums(s[1..])
  }

  /** Collapsing gives only slug characters, never `--`, and starts with `-` only where `s` does not start with `[a-z0-9]`. */
  lemma {:induction false} CollapseSpec(s: string)
    ensures SlugChars(Collapse(s)) && NoDoubleDash(Collapse(s))
    ensures Collapse(s) == [] <==> s == []
    ensures s != [] ==> (Collapse(s)[0] == '-' <==> !IsAlnum(s[0]))
    decreases |s|
  {
    if s != [] {
      if IsAlnum(s[0]) {
        CollapseSpec(s[1..]);
      } else {
        var rest := SkipRun(s[1..]);
        CollapseSpec(rest);
        var c := Collapse(rest);
        assert Collapse(s) == "-" + c;
        assert c != [] ==> c[0] != '-';
      }
    }
  }

  /** Removing the edge dashes of a string without `--` leaves a clean base. */
  lemma TrimDashesClean(s: string)
    requires SlugChars(s) && NoDoubleDash(s)
    ensures CleanBase(TrimDashes(s))
  {
    var a := if s != [] && s[0] == '-' then s[1..] else s;
    assert SlugChars(a) && NoDoubleDash(a);
    assert a != [] ==> a[0] != '-';
    if a != [] && a[|a| - 1] == '-' {
      var b := a[..|a| - 1];
      assert b != [] ==> b[|b| - 1] == a[|a| - 2] && b[0] == a[0];
    }
  }

  /** The slug base contains only `[a-z0-9-]`, has no `--` and no `-` at either end. */
  lemma SlugBaseClean(t: string)
    ensures CleanBase(BaseOfFolded(t))
  {
    CollapseSpec(StripMarks(t));
    TrimDashesClean(Collapse(StripMarks(t)));
  }

  /** A clean base has no combining mark. */
  lemma {:induction false} StripMarksOfClean(s: string)
    requires SlugChars(s)
    ensures StripMarks(s) == s
  {
    if s != [] {
      assert !IsMark(s[0]);
      StripMarksOfClean(s[1..]);
    }
  }

  /** Collapsing a string of slug characters without `--` changes nothing. */
  lemma {:induction false} CollapseOfClean(s: string)
    requires SlugChars(s) && NoDoubleDash(s)
    ensures Collapse(s) == s
    decreases |s|
  {
    if s != [] {
      var t := s[1..];
      assert SlugChars(t) && NoDoubleDash(t);
      if IsAlnum(s[0]) {
        CollapseOfClean(t);
      } else {
        assert t != [] ==> t[0] != '-';
        assert SkipRun(t) == t;
        CollapseOfClean(t);
      }
    }
  }

  /** A clean base is its own slug base. */
  lemma BaseOfClean(s: string)
    requires CleanBase(s)
    ensures BaseOfFolded(s) == s
  {
    StripMarksOfClean(s);
    CollapseOfClean(s);
  }

  /** Computing the base of a base changes nothing. */
  lemma BaseIdempotent(t: string)
    ensures BaseOfFolded(BaseOfFolded(t)) == BaseOfFolded(t)
  {
    SlugBaseClean(t);
    BaseOfClean(BaseOfFolded(t));
  }

  lemma {:induction false} AlnumsAppend(a: string, b: string)
    ensures Alnums(a + b) == Alnums(a) + Alnums(b)
  {
    if a == [] {
      assert a + b == b;
    } else {
      var h := if IsAlnum(a[0]) then [a[0]] else [];
      assert (a + b)[0] == a[0] && (a + b)[1..] == a[1..] + b;
      assert Alnums(a + b) == h + Alnums(a[1..] + b);
      assert Alnums(a) == h + Alnums(a[1..]);
      AlnumsAppend(a[1..], b);
      assert h + (Alnums(a[1..]) + Alnums(b)) == (h + Alnums(a[1..])) + Alnums(b);
    }
  }

  lemma {:induction false} AlnumsSkipRun(s: string)
    ensures Alnums(SkipRun(s)) == Alnums(s)
  {
    if s != [] && !IsAlnum(s[0]) {
      AlnumsSkipRun(s[1..]);
    }
  }

  lemma {:induction false} AlnumsCollapse(s: string)
    ensures Alnums(Collapse(s)) == Alnums(s)
    decreases |s|
  {
    if s != [] {
      if IsAlnum(s[0]) {
        AlnumsCollapse(s[1..]);
        AlnumsAppend([s[0]], Collapse(s[1..]));
      } else {
        AlnumsSkipRun(s[1..]);
        AlnumsCollapse(SkipRun(s[1..]));
        AlnumsAppend("-", Collapse(SkipRun(s[1..])));
      }
    }
  }

  lemma {:induction false} AlnumsStripMarks(s: string)
    ensures Alnums(StripMarks(s)) == Alnums(s)
  {
    if s != [] {
      AlnumsStripMarks(s[1..]);
      AlnumsAppend(if IsMark(s[0]) then [] else [s[0]], StripMarks(s[1..]));
    }
  }

  lemma AlnumsTrimDashes(s: string)
    ensures Alnums(TrimDashes(s)) == Alnums(s)
  {
    var a := if s != [] && s[0] == '-' then s[1..] else s;
    assert Alnums(a) == Alnums(s) by {
      if s != [] && s[0] == '-' {
        assert s == "-" + a;
        AlnumsAppend("-", a);
        assert Alnums("-") == [] by { assert "-"[1..] == []; }
      }
    }
    if a != [] && a[|a| - 1] == '-' {
      var b := a[..|a| - 1];
      assert a == b + "-";
      AlnumsAppend(b, "-");
      assert Alnums("-") == [] by { assert "-"[1..] == []; }
      assert TrimDashes(s) == b;
    } else {
      assert TrimDashes(s) == a;
    }
  }

  /**
   * The letters and digits of the folded title survive, in order, and they are
   * the only ones in the base: only runs of other characters are replaced.
   */
  lemma BaseKeepsAlnums(t: string)
    ensures Alnums(BaseOfFolded(t)) == Alnums(t)
  {
    AlnumsStripMarks(t);
    AlnumsCollapse(StripMarks(t));
    AlnumsTrimDashes(Collapse(StripMarks(t)));
  }

  /** The base is empty exactly when the folded title has no letter or digit of `[a-z0-9]`. */
  lemma EmptyBase(t: string)
    ensures BaseOfFolded(t) == [] <==> Alnums(t) == []
  {
    BaseKeepsAlnums(t);
    SlugBaseClean(t);
    var b := BaseOfFolded(t);
    if b != [] {
      assert IsAlnum(b[0]);
      assert Alnums(b) == [b[0]] + Alnums(b[1..]);
    }
  }

  /** A title made only of punctuation gives a slug that starts with `-`. */
  lemma PunctuationTitle(title: string, fold: string -> string, random: string)
    requires title != "" && Alnums(fold(title)) == []
    ensures Slugify(title, fold, random)[0] == '-'
  {
    EmptyBase(fold(title));
  }

  /** An empty title slugifies from `encuesta` (which `fold` leaves as it is). */
  lemma EmptyTitle(fold: string -> string, random: string)
    requires fold("encuesta") == "encuesta"
    ensures Slugify("", fold, random) == "encuesta-" + Slice(random, 2, 7)
  {
    assert CleanBase("encuesta");
    BaseOfClean("encuesta");
  }

  // ---------------------------------------------------------------------------
  // The page

  /** The object passed to `insert` for a new survey. */
  datatype NewSurvey = NewSurvey(ownerId: string, title: string, description: string, publicSlug: string, isActive: bool)

  const SignInFirst := "Debes iniciar sesión para crear encuestas."
  const CreateFallback := "No se pudo crear la encuesta."

  /** Where the page goes once the survey exists. */
  function QuestionsPath(slug: string): string {
    "/surveys/" + slug + "/questions"
  }

  class CreatePage {
    var title: string
    var description: string
    var loading: bool
    var error: Option<string>

    constructor()
      ensures title == "" && description == "" && !loading && error == None
    {
      title := "";
      description := "";
      loading := false;
      error := None;
    }

    /**
     * `handleSubmit`. Without a user the error is set and nothing is inserted.
     * Otherwise the survey is inserted with a fresh slug; on success the page
     * navigates to its question editor, on failure the error is shown.
     */
    method HandleSubmit(user: Option<string>, fold: string -> string, random: string, insertError: Option<Thrown>)
      returns (inserted: Option<NewSurvey>, navigateTo: Option<string>)
      modifies this
      ensures user.None? ==> inserted == None && navigateTo == None && error == Some(SignInFirst) && loading == old(loading)
      ensures user.Some? ==>
        !loading && inserted == Some(NewSurvey(user.value, title, description, Slugify(title, fold, random), true))
      ensures user.Some? && insertError.None? ==>
        error == None && navigateTo == Some(QuestionsPath(inserted.value.publicSlug))
      ensures user.Some? && insertError.Some? ==>
        navigateTo == None && error == Some(MessageOr(insertError.value, CreateFallback))
      ensures title == old(title) && description == old(description)
    {
      error := None;
      inserted := None;
      navigateTo := None;
      if user.None? {
        error := Some(SignInFirst);
        return;
      }
      loading := true;
      var slug := Slugify(title, fold, random);
      inserted := Some(NewSurvey(user.value, title, description, slug, true));
      if insertError.Some? {
        error := Some(MessageOr(insertError.value, CreateFallback));
      } else {
        navigateTo := Some(QuestionsPath(slug));
      }
      loading := false;
    }
  }
}
