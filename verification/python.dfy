/** The few pieces of Python semantics that the deployment scripts rely on:
    optional values, truthiness of strings, the `or` operator, `str.lower()`
    and the substring test `t in s`. */
module Python {

  datatype Option<+T> = None | Some(value: T)

  /** Truthiness of a value that is either None or a string: None and "" are false. */
  predicate Truthy(s: Option<string>)
  {
    s.Some? && s.value != ""
  }

  /** Python's `x or y` on values that are None or strings: `x` when it is truthy, otherwise `y`. */
  function Or(x: Option<string>, y: Option<string>): (r: Option<string>)
    ensures Truthy(r) <==> Truthy(x) || Truthy(y)
    ensures Truthy(x) ==> r == x
    ensures !Truthy(x) ==> r == y
  {
    if Truthy(x) then x else y
  }

  /** `t` occurs in `s` starting at index `i`. */
  predicate MatchesAt(s: string, t: string, i: nat)
  {
    i + |t| <= |s| && s[i..i + |t|] == t
  }

  /** `t` occurs in `s` at some position (the meaning of Python's `t in s` on strings). */
  ghost predicate OccursIn(t: string, s: string)
  {
    exists i: nat :: MatchesAt(s, t, i)
  }

  /** The executable substring test, scanning `s` from the left. */
  function Contains(s: string, t: string): (b: bool)
    ensures b <==> OccursIn(t, s)
    decreases |s|
  {
    if |s| < |t| then
      NoRoomNoOccurrence(s, t);
      false
    else if s[..|t|] == t then
      assert MatchesAt(s, t, 0);
      true
    else
      ShiftedOccurrence(s, t);
      Contains(s[1..], t)
  }

  /** A string longer than `s` does not occur in it. */
  lemma NoRoomNoOccurrence(s: string, t: string)
    requires |s| < |t|
    ensures !OccursIn(t, s)
  {
    forall i: nat ensures !MatchesAt(s, t, i) {
    }
  }

  /** When `t` is not a prefix of `s`, `t` occurs in `s` exactly when it occurs in `s[1..]`. */
  lemma ShiftedOccurrence(s: string, t: string)
    requires |t| <= |s| && s[..|t|] != t
    ensures OccursIn(t, s) <==> OccursIn(t, s[1..])
  {
    forall i: nat | MatchesAt(s, t, i) ensures i > 0 && MatchesAt(s[1..], t, i - 1) {
      assert i != 0 by { assert s[0..|t|] == s[..|t|]; }
      assert s[1..][i - 1..i - 1 + |t|] == s[i..i + |t|];
    }
    forall i: nat | MatchesAt(s[1..], t, i) ensures MatchesAt(s, t, i + 1) {
      assert s[i + 1..i + 1 + |t|] == s[1..][i..i + |t|];
    }
  }

  /** A character that does not occur in `s` rules out every string starting with it. */
  lemma AbsentFirstCharacter(s: string, t: string)
    requires |t| > 0 && t[0] !in s
    ensures !OccursIn(t, s)
  {
    forall i: nat | i + |t| <= |s| ensures !MatchesAt(s, t, i) {
      assert s[i..i + |t|][0] == s[i];
    }
  }

  predicate IsUpper(c: char)
  {
    'A' <= c <= 'Z'
  }

  /** `str.lower()` on one character, for the ASCII letters the scripts handle. */
  function LowerChar(c: char): char
  {
    if IsUpper(c) then (c as int + 32) as char else c
  }

  /** `str.lower()`, character by character: no capital is left, a capital becomes the small
      letter at the same place in the alphabet, and every other character is kept. */
  function Lower(s: string): (r: string)
    ensures |r| == |s|
    ensures forall i :: 0 <= i < |r| ==> !IsUpper(r[i])
    ensures forall i :: 0 <= i < |s| && IsUpper(s[i]) ==>
      'a' <= r[i] <= 'z' && r[i] as int - 'a' as int == s[i] as int - 'A' as int
    ensures forall i :: 0 <= i < |s| && !IsUpper(s[i]) ==> r[i] == s[i]
  {
    seq(|s|, i requires 0 <= i < |s| => LowerChar(s[i]))
  }

  /** Lowering twice is lowering once. */
  lemma LowerIdempotent(s: string)
    ensures Lower(Lower(s)) == Lower(s)
  {
  }
}
