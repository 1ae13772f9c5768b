/** Option and Result, used for C#'s nullable references and for lookups that can fail. */
module Wrappers {

  datatype Option<+T> = None | Some(value: T)

  datatype Result<+T, +E> = Success(value: T) | Failure(error: E)
}

/**
 * The few pieces of .NET string behaviour that the validators and controllers rely on:
 * char.IsWhiteSpace, string.IsNullOrEmpty, string.IsNullOrWhiteSpace, the UTF-16 length
 * reported by string.Length, and the decimal text of an int inside an interpolated string.
 */
module DotNetText {
  import opened Wrappers

  /** char.IsWhiteSpace: the Unicode space, line and paragraph separators plus U+0009..U+000D and U+0085. */
  predicate IsWhiteSpace(c: char) {
    || ('\U{9}' <= c <= '\U{D}')
    || c == ' '
    || c == '\U{85}'
    || c == '\U{A0}'
    || c == '\U{1680}'
    || ('\U{2000}' <= c <= '\U{200A}')
    || c == '\U{2028}'
    || c == '\U{2029}'
    || c == '\U{202F}'
    || c == '\U{205F}'
    || c == '\U{3000}'
  }

  /** string.IsNullOrEmpty */
  predicate IsNullOrEmpty(s: Option<string>) {
    s.None? || s.value == ""
  }

  /** string.IsNullOrWhiteSpace: null, or every character is white space (so "" too) */
  predicate IsNullOrWhiteSpace(s: Option<string>) {
    s.None? || forall i :: 0 <= i < |s.value| ==> IsWhiteSpace(s.value[i])
  }

  /** Number of UTF-16 code units of one character: scalar values above U+FFFF take a surrogate pair. */
  function CodeUnits(c: char): nat {
    if c as int > 0xFFFF then 2 else 1
  }

  /** string.Length, which counts UTF-16 code units rather than characters. */
  function Utf16Length(s: string): (n: nat)
    ensures |s| <= n <= 2 * |s|
  {
    if s == [] then 0 else CodeUnits(s[0]) + Utf16Length(s[1..])
  }

  predicate InBmp(s: string) {
    forall i :: 0 <= i < |s| ==> s[i] as int <= 0xFFFF
  }

  /** For text without surrogate pairs, string.Length is the number of characters. */
  lemma {:induction false} BmpLength(s: string)
    requires InBmp(s)
    ensures Utf16Length(s) == |s|
  {
    if s != [] {
      assert InBmp(s[1..]) by {
        forall i | 0 <= i < |s[1..]| ensures s[1..][i] as int <= 0xFFFF {
          assert s[1..][i] == s[i + 1];
        }
      }
      BmpLength(s[1..]);
    }
  }

  /** White space characters all lie in the Basic Multilingual Plane. */
  lemma WhiteSpaceInBmp(s: string)
    requires forall i :: 0 <= i < |s| ==> IsWhiteSpace(s[i])
    ensures InBmp(s)
  {
  }

  function DigitChar(d: nat): char
    requires d < 10
  {
    "0123456789"[d]
  }

  function NatToString(n: nat): (s: string)
    ensures |s| >= 1
    decreases n
  {
    if n < 10 then [DigitChar(n)] else NatToString(n / 10) + [DigitChar(n % 10)]
  }

  /** The text of an int in an interpolated string: decimal digits, with a leading '-' when negative. */
  function IntToString(n: int): string {
    if n < 0 then "-" + NatToString(-n) else NatToString(n)
  }
}

/**
 * The FluentValidation building blocks the validators use, with the library's semantics:
 * every rule of a chain runs (the default cascade mode is Continue), so one property can
 * contribute more than one message; a child validator set on a null property is skipped.
 */
module Fluent {
  import opened Wrappers
  import opened DotNetText

  /** NotEmpty() on a string property: not null, not "" and not only white space. */
  predicate NotEmptyText(v: Option<string>) {
    !IsNullOrWhiteSpace(v)
  }

  /** MaximumLength(max): a null value passes; otherwise string.Length must not exceed max. */
  predicate WithinLength(v: Option<string>, max: nat) {
    v.None? || Utf16Length(v.value) <= max
  }

  /** One rule with its WithMessage text: no failure when the rule holds. */
  function Rule(holds: bool, message: string): (errors: seq<string>)
    ensures errors == [] <==> holds
    ensures !holds ==> errors == [message]
  {
    if holds then [] else [message]
  }

  /** RuleForEach(x => x.Items).SetValidator(child): the child's messages for every element, in order. */
  function ForEach<T>(xs: seq<T>, child: T -> seq<string>): (errors: seq<string>)
    ensures errors == [] <==> forall i :: 0 <= i < |xs| ==> child(xs[i]) == []
    ensures forall i :: 0 <= i < |xs| ==> multiset(child(xs[i])) <= multiset(errors)
  {
    if xs == [] then []
    else
      var rest := ForEach(xs[1..], child);
      assert forall i :: 1 <= i < |xs| ==> xs[i] == xs[1..][i - 1];
      child(xs[0]) + rest
  }

  /** For text without surrogate pairs, MaximumLength(max) is a bound on the number of characters. */
  lemma WithinLengthOfBmp(s: string, max: nat)
    requires InBmp(s)
    ensures WithinLength(Some(s), max) <==> |s| <= max
  {
    BmpLength(s);
  }

  /**
   * A NotEmpty() rule followed by MaximumLength(max) on the same string. Both rules run, so
   * a value can fail both: exactly when it is white space only and longer than max.
   */
  function RequiredWithin(v: Option<string>, max: nat, required: string, tooLong: string): (errors: seq<string>)
    requires required != tooLong
    ensures errors == [] <==> NotEmptyText(v) && WithinLength(v, max)
    ensures required in errors <==> !NotEmptyText(v)
    ensures tooLong in errors <==> !WithinLength(v, max)
    ensures |errors| <= 2
    ensures |errors| == 2 <==> v.Some? && max < |v.value| && forall i :: 0 <= i < |v.value| ==> IsWhiteSpace(v.value[i])
  {
    BlankAndLong(v, max);
    Rule(NotEmptyText(v), required) + Rule(WithinLength(v, max), tooLong)
  }

  /** A value fails both NotEmpty() and MaximumLength(max) iff it is blank text longer than max. */
  lemma BlankAndLong(v: Option<string>, max: nat)
    ensures (!NotEmptyText(v) && !WithinLength(v, max)) <==>
      (v.Some? && max < |v.value| && forall i :: 0 <= i < |v.value| ==> IsWhiteSpace(v.value[i]))
  {
    if v.Some? && IsNullOrWhiteSpace(v) {
      WhiteSpaceInBmp(v.value);
      BmpLength(v.value);
    }
  }

  /** A string of n copies of one character. */
  function Repeat(c: char, n: nat): (s: string)
    ensures |s| == n
    ensures forall i :: 0 <= i < n ==> s[i] == c
  {
    seq(n, _ => c)
  }

  /** The boundary of MaximumLength(max): max letters pass, max + 1 letters fail. */
  lemma {:induction false} LengthBoundary(max: nat)
    ensures WithinLength(Some(Repeat('a', max)), max)
    ensures !WithinLength(Some(Repeat('a', max + 1)), max)
    ensures NotEmptyText(Some(Repeat('a', max + 1)))
  {
    WithinLengthOfBmp(Repeat('a', max), max);
    WithinLengthOfBmp(Repeat('a', max + 1), max);
    assert !IsWhiteSpace(Repeat('a', max + 1)[0]);
  }

  /** At the boundary of NotEmpty().MaximumLength(max): max letters pass, max + 1 letters give the length message only. */
  lemma {:induction false} RequiredWithinBoundary(max: nat, required: string, tooLong: string)
    requires 0 < max && required != tooLong
    ensures RequiredWithin(Some(Repeat('a', max)), max, required, tooLong) == []
    ensures RequiredWithin(Some(Repeat('a', max + 1)), max, required, tooLong) == [tooLong]
  {
    LengthBoundary(max);
    assert !IsWhiteSpace(Repeat('a', max)[0]);
    var e := RequiredWithin(Some(Repeat('a', max + 1)), max, required, tooLong);
    assert |e| <= 2 && tooLong in e && required !in e;
    assert |e| != 2;
  }
}
