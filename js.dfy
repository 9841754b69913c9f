/**
 * The small pieces of JavaScript runtime behaviour the survey client relies on:
 * optional values (`null`/`undefined`), thrown values, `String.prototype.trim`,
 * `String.prototype.includes` and `String.prototype.slice`.
 */
module Js {

  /** A value that may be `null` or `undefined` (both are `None`). */
  datatype Option<+T> = None | Some(value: T) {
    /** `x ?? d` */
    function OrElse(d: T): T {
      match this
      case Some(v) => v
      case None => d
    }
  }

  /** The outcome of an operation that can fail with a message shown to the user. */
  datatype Result<T> = Ok(value: T) | Err(message: string)

  /**
   * A value caught by a `catch` clause. `ErrorInstance` is anything for which
   * `err instanceof Error` holds, and it carries `err.message`; `NonError` is
   * any other thrown value.
   */
  datatype Thrown = ErrorInstance(message: string) | NonError

  /** `err instanceof Error ? err.message : fallback`, the idiom of every catch clause of the client. */
  function MessageOr(err: Thrown, fallback: string): (r: string)
    ensures err.ErrorInstance? ==> r == err.message
    ensures err.NonError? ==> r == fallback
  {
    match err
    case ErrorInstance(m) => m
    case NonError => fallback
  }

  /** The primitive values an id comparison meets: `null`, `undefined` or a string. */
  datatype Primitive = Null | Undefined | Str(s: string)

  /** `a === b`: the same kind of value and, for strings, the same characters; `null !== undefined`. */
  predicate StrictEquals(a: Primitive, b: Primitive) {
    match (a, b)
    case (Null, Null) => true
    case (Undefined, Undefined) => true
    case (Str(x), Str(y)) => x == y
    case _ => false
  }

  /** A string is truthy unless it is empty; an absent string is falsy. */
  predicate Truthy(s: Option<string>) {
    s.Some? && s.value != ""
  }

  // ---------------------------------------------------------------------------
  // trim

  /** The WhiteSpace and LineTerminator code points that `trim` removes (ECMAScript). */
  predicate IsWhiteSpace(c: char) {
    c == '\U{0009}' || c == '\U{000B}' || c == '\U{000C}' || c == '\U{0020}' || c == '\U{00A0}'
    || c == '\U{FEFF}' || c == '\U{1680}' || ('\U{2000}' <= c <= '\U{200A}') || c == '\U{202F}'
    || c == '\U{205F}' || c == '\U{3000}'
    || c == '\U{000A}' || c == '\U{000D}' || c == '\U{2028}' || c == '\U{2029}'
  }

  /** Every character of `s` is white space (so `s.trim()` is empty). */
  predicate IsBlank(s: string) {
    forall i :: 0 <= i < |s| ==> IsWhiteSpace(s[i])
  }

  /** Number of white-space characters at the start of `s`. */
  function LeadingSpace(s: string): (n: nat)
    ensures n <= |s|
    ensures IsBlank(s[..n])
    ensures n < |s| ==> !IsWhiteSpace(s[n])
  {
    if s == [] || !IsWhiteSpace(s[0]) then 0
    else
      var n := 1 + LeadingSpace(s[1..]);
      assert s[..n] == [s[0]] + s[1..][..n - 1];
      n
  }

  /** Number of white-space characters at the end of `s`. */
  function TrailingSpace(s: string): (n: nat)
    ensures n <= |s|
    ensures IsBlank(s[|s| - n..])
    ensures n < |s| ==> !IsWhiteSpace(s[|s| - 1 - n])
  {
    if s == [] || !IsWhiteSpace(s[|s| - 1]) then 0
    else
      var init := s[..|s| - 1];
      var n := 1 + TrailingSpace(init);
      assert s[|s| - n..] == init[|init| - (n - 1)..] + [s[|s| - 1]];
      n
  }

  /** `s.trim()`: `s` without its leading and trailing white space. */
  function Trim(s: string): (r: string)
    ensures LeadingSpace(s) + |r| <= |s|
    ensures r == s[LeadingSpace(s)..LeadingSpace(s) + |r|]
    ensures IsBlank(s[LeadingSpace(s) + |r|..])
    ensures r != [] ==> !IsWhiteSpace(r[0]) && !IsWhiteSpace(r[|r| - 1])
    ensures r == [] <==> IsBlank(s)
  {
    var a := LeadingSpace(s);
    var t := s[a..];
    BlankSplit(s, a);
    t[..|t| - TrailingSpace(t)]
  }

  /** A string is blank exactly when its two parts are. */
  lemma BlankSplit(s: string, a: nat)
    requires a <= |s|
    ensures IsBlank(s) <==> IsBlank(s[..a]) && IsBlank(s[a..])
  {
    if IsBlank(s[..a]) && IsBlank(s[a..]) {
      forall i | 0 <= i < |s| ensures IsWhiteSpace(s[i]) {
        if i < a { assert s[i] == s[..a][i]; } else { assert s[i] == s[a..][i - a]; }
      }
    }
  }

  /** Trimming is idempotent. */
  lemma TrimIdempotent(s: string)
    ensures Trim(Trim(s)) == Trim(s)
  {
    var r := Trim(s);
    if r != [] {
      assert LeadingSpace(r) == 0;
      assert TrailingSpace(r) == 0;
    }
  }

  // ---------------------------------------------------------------------------
  // includes

  /** `s.includes(t)`: `t` occurs in `s` as a contiguous substring. */
  predicate Includes(s: string, t: string)
    decreases |s|
  {
    t <= s || (s != [] && Includes(s[1..], t))
  }

  /** `Includes` holds exactly when `t` occurs at some position of `s`. */
  lemma {:induction false} IncludesAt(s: string, t: string, i: nat)
    requires i + |t| <= |s| && s[i..i + |t|] == t
    ensures Includes(s, t)
    decreases i
  {
    if i == 0 {
      assert t <= s;
    } else {
      assert s[1..][i - 1..i - 1 + |t|] == t;
      IncludesAt(s[1..], t, i - 1);
    }
  }

  /** Conversely, every `Includes` has a witness position. */
  lemma {:induction false} IncludesWitness(s: string, t: string) returns (i: nat)
    requires Includes(s, t)
    ensures i + |t| <= |s| && s[i..i + |t|] == t
    decreases |s|
  {
    if t <= s {
      i := 0;
    } else {
      var j := IncludesWitness(s[1..], t);
      i := j + 1;
      assert s[i..i + |t|] == s[1..][j..j + |t|];
    }
  }

  /** A string that lacks a character of `t` cannot contain `t`. */
  lemma {:induction false} MissingCharExcludes(s: string, t: string, c: char)
    requires c in t && c !in s
    ensures !Includes(s, t)
  {
    if Includes(s, t) {
      var i := IncludesWitness(s, t);
    }
  }

  // ---------------------------------------------------------------------------
  // slice

  /** `s.slice(start, end)` for non-negative `start` and `end`: both are clamped to `|s|`. */
  function Slice(s: string, start: nat, end: nat): (r: string)
    ensures |r| == if start < end && start < |s| then (if end < |s| then end else |s|) - start else 0
    ensures forall i :: 0 <= i < |r| ==> r[i] == s[start + i]
  {
    var e := if end < |s| then end else |s|;
    if start < e then s[start..e] else []
  }
}
