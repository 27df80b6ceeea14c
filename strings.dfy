/**
 * The string operations the Companies list relies on, taken from the
 * JavaScript runtime: the relational `<` on two strings, `toLowerCase`
 * (ASCII letters only) and `indexOf(sub) !== -1` (substring occurrence).
 */
module Strings {

  /** JavaScript's `s < t` on two strings: lexicographic by character code,
      a proper prefix coming first. */
  predicate Less(s: string, t: string)
  {
    if |s| == 0 then |t| > 0
    else if |t| == 0 then false
    else if s[0] < t[0] then true
    else if t[0] < s[0] then false
    else Less(s[1..], t[1..])
  }

  lemma {:induction false} LessIrreflexive(s: string)
    ensures !Less(s, s)
  {
    if |s| > 0 {
      LessIrreflexive(s[1..]);
    }
  }

  lemma {:induction false} LessAsymmetric(s: string, t: string)
    ensures Less(s, t) ==> !Less(t, s)
  {
    if |s| > 0 && |t| > 0 && s[0] == t[0] {
      LessAsymmetric(s[1..], t[1..]);
    }
  }

  lemma {:induction false} LessTransitive(s: string, t: string, u: string)
    requires Less(s, t) && Less(t, u)
    ensures Less(s, u)
  {
    if |s| > 0 && s[0] == t[0] && t[0] == u[0] {
      LessTransitive(s[1..], t[1..], u[1..]);
    }
  }

  /** Two different strings are always ordered one way or the other. */
  lemma {:induction false} LessTotal(s: string, t: string)
    ensures s == t || Less(s, t) || Less(t, s)
  {
    if |s| > 0 && |t| > 0 && s[0] == t[0] {
      LessTotal(s[1..], t[1..]);
      if s[1..] == t[1..] {
        assert s == [s[0]] + s[1..] && t == [t[0]] + t[1..];
      }
    }
  }

  /** `toLowerCase` on one character; only the ASCII letters A-Z change. */
  function LowerChar(c: char): char
  {
    if 'A' <= c <= 'Z' then (c as int + 32) as char else c
  }

  /** `toLowerCase` on a string, character by character. */
  function Lower(s: string): string
  {
    seq(|s|, i requires 0 <= i < |s| => LowerChar(s[i]))
  }

  lemma LowerIdempotent(s: string)
    ensures Lower(Lower(s)) == Lower(s)
  {
  }

  /** `sub` sits in `s` starting at position `i`. */
  predicate OccursAt(s: string, sub: string, i: int)
  {
    0 <= i && i + |sub| <= |s| && s[i..i + |sub|] == sub
  }

  /** `s.indexOf(sub) !== -1`: `sub` occurs in `s` at some position. */
  function Contains(s: string, sub: string): (r: bool)
    ensures r <==> exists i :: OccursAt(s, sub, i)
    decreases |s|
  {
    if |sub| <= |s| && s[..|sub|] == sub then
      assert OccursAt(s, sub, 0);
      true
    else if |sub| >= |s| then
      false
    else
      OccursInTail(s, sub);
      Contains(s[1..], sub)
  }

  /** Away from position 0, an occurrence in `s` is an occurrence in `s[1..]`. */
  lemma OccursInTail(s: string, sub: string)
    requires |s| > 0 && !OccursAt(s, sub, 0)
    ensures (exists i :: OccursAt(s, sub, i)) <==> (exists i :: OccursAt(s[1..], sub, i))
  {
    forall i | OccursAt(s[1..], sub, i)
      ensures OccursAt(s, sub, i + 1)
    {
      assert s[i + 1..i + 1 + |sub|] == s[1..][i..i + |sub|];
    }
    forall i | OccursAt(s, sub, i)
      ensures OccursAt(s[1..], sub, i - 1)
    {
      assert s[1..][i - 1..i - 1 + |sub|] == s[i..i + |sub|];
    }
  }
}
