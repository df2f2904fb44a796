/**
 * `toLowerCase` / `toUpperCase` restricted to ASCII letters; every other
 * character maps to itself.
 */
module Ascii {

  predicate IsUpper(c: char) { 'A' <= c <= 'Z' }
  predicate IsLower(c: char) { 'a' <= c <= 'z' }

  function LowerChar(c: char): char {
    if IsUpper(c) then (c as int + 32) as char else c
  }

  function UpperChar(c: char): char {
    if IsLower(c) then (c as int - 32) as char else c
  }

  function Lower(s: string): string {
    seq(|s|, i requires 0 <= i < |s| => LowerChar(s[i]))
  }

  function Upper(s: string): string {
    seq(|s|, i requires 0 <= i < |s| => UpperChar(s[i]))
  }

  /** The characters whose lower-case form is the letter-or-other `l`. */
  lemma LowerCharInverse(c: char, l: char)
    requires !IsUpper(l)
    ensures LowerChar(c) == l <==> c == l || c == UpperChar(l)
  {
  }

  /** The characters whose upper-case form is `u`. */
  lemma UpperCharInverse(c: char, u: char)
    requires !IsLower(u)
    ensures UpperChar(c) == u <==> c == u || c == LowerChar(u)
  {
  }

  /** A string folds to the lower-case `target` iff each position matches either case. */
  lemma LowerEquals(s: string, target: string)
    requires forall i :: 0 <= i < |target| ==> !IsUpper(target[i])
    ensures Lower(s) == target <==>
      |s| == |target| && forall i :: 0 <= i < |s| ==> s[i] == target[i] || s[i] == UpperChar(target[i])
  {
    if |s| == |target| {
      forall i | 0 <= i < |s| ensures Lower(s)[i] == target[i] <==> s[i] == target[i] || s[i] == UpperChar(target[i]) {
        LowerCharInverse(s[i], target[i]);
      }
      if forall i :: 0 <= i < |s| ==> Lower(s)[i] == target[i] {
        assert Lower(s) == target;
      }
    }
  }

  /** A string folds to the upper-case `target` iff each position matches either case. */
  lemma UpperEquals(s: string, target: string)
    requires forall i :: 0 <= i < |target| ==> !IsLower(target[i])
    ensures Upper(s) == target <==>
      |s| == |target| && forall i :: 0 <= i < |s| ==> s[i] == target[i] || s[i] == LowerChar(target[i])
  {
    if |s| == |target| {
      forall i | 0 <= i < |s| ensures Upper(s)[i] == target[i] <==> s[i] == target[i] || s[i] == LowerChar(target[i]) {
        UpperCharInverse(s[i], target[i]);
      }
      if forall i :: 0 <= i < |s| ==> Upper(s)[i] == target[i] {
        assert Upper(s) == target;
      }
    }
  }
}
