/** The PHP values and the few PHP language rules the modelled code relies on:
    `empty()`, strict `===`, PHP 8 loose `==` against a plain word, and `strtolower`. */
module Php {

  /** A PHP value as it can reach a request parameter or an effect's parameter bag.
      Arrays keep their values in order; their keys are not modelled. */
  datatype Value =
    | Null
    | Bool(b: bool)
    | Int(i: int)
    | Float(f: real)
    | Str(s: string)
    | Arr(elems: seq<Value>)

  /** PHP's `empty()`: true exactly for null, false, 0, 0.0, "", "0" and the empty array. */
  predicate Empty(v: Value)
  {
    match v
    case Null => true
    case Bool(b) => !b
    case Int(i) => i == 0
    case Float(f) => f == 0.0
    case Str(s) => s == "" || s == "0"
    case Arr(elems) => |elems| == 0
  }

  /** A non-empty string of lower-case ASCII letters: never numeric, never falsy. */
  predicate IsLowerWord(w: string)
  {
    |w| > 0 && forall i :: 0 <= i < |w| ==> 'a' <= w[i] <= 'z'
  }

  /** PHP 8's loose comparison `v == w` against a lower-case word `w`.
      null is compared as "", a bool against the truthiness of `w` (which is true),
      a number as its decimal string (which is numeric, so never `w`),
      and an array is never equal to a string. */
  predicate LooseEqualsWord(v: Value, w: string)
    requires IsLowerWord(w)
  {
    match v
    case Null => false
    case Bool(b) => b
    case Int(_) => false
    case Float(_) => false
    case Str(s) => s == w
    case Arr(_) => false
  }

  /** Loose equality with a word admits exactly the word itself and `true`. */
  lemma LooseEqualsWordCases(v: Value, w: string)
    requires IsLowerWord(w)
    ensures LooseEqualsWord(v, w) <==> v == Str(w) || v == Bool(true)
  {
  }

  predicate IsUpper(c: char)
  {
    'A' <= c <= 'Z'
  }

  /** The ASCII lower-case of `c`; every other character is left alone. */
  function LowerChar(c: char): char
  {
    if IsUpper(c) then (c as int + 32) as char else c
  }

  /** The ASCII upper-case partner of a lower-case letter. */
  function UpperChar(c: char): char
    requires 'a' <= c <= 'z'
  {
    (c as int - 32) as char
  }

  /** PHP's `strtolower`, which maps exactly the ASCII letters A-Z. */
  function ToLower(s: string): (r: string)
    ensures |r| == |s|
    ensures forall i :: 0 <= i < |s| ==> r[i] == LowerChar(s[i])
    ensures forall i :: 0 <= i < |r| ==> !IsUpper(r[i])
  {
    if s == [] then [] else [LowerChar(s[0])] + ToLower(s[1..])
  }

  /** Lower-casing is idempotent. */
  lemma ToLowerIdempotent(s: string)
    ensures ToLower(ToLower(s)) == ToLower(s)
  {
  }

  /** A character lower-cases to the letter `l` exactly when it is `l` or its upper-case partner. */
  lemma LowerCharIs(c: char, l: char)
    requires 'a' <= l <= 'z'
    ensures LowerChar(c) == l <==> c == l || c == UpperChar(l)
  {
  }

  /** A string lower-cases to a word of lower-case letters exactly when, position by position,
      it spells that word in either case: the case-insensitive match `strtolower` gives. */
  lemma ToLowerMatches(u: string, w: string)
    requires forall i :: 0 <= i < |w| ==> 'a' <= w[i] <= 'z'
    ensures ToLower(u) == w <==>
              |u| == |w| && forall i :: 0 <= i < |u| ==> u[i] == w[i] || u[i] == UpperChar(w[i])
  {
    if |u| == |w| {
      forall i | 0 <= i < |u|
        ensures ToLower(u)[i] == w[i] <==> u[i] == w[i] || u[i] == UpperChar(w[i])
      {
        LowerCharIs(u[i], w[i]);
      }
    }
  }
}
