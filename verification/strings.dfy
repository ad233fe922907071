/** The few JavaScript string operations the core relies on, over `seq<char>`. */
module Strings {

  /** `sub` occurs in `s` starting at index `i`. */
  predicate OccursAt(s: string, sub: string, i: nat) {
    i + |sub| <= |s| && s[i..i + |sub|] == sub
  }

  /** JavaScript `s.includes(sub)`, also what an unanchored, flag-free regular
      expression made of plain characters tests. */
  predicate Contains(s: string, sub: string) {
    exists i: nat | i <= |s| :: OccursAt(s, sub, i)
  }

  /** JavaScript `s.startsWith(p)`. */
  predicate StartsWith(s: string, p: string) {
    |p| <= |s| && s[..|p|] == p
  }

  function LowerChar(c: char): char {
    if 'A' <= c <= 'Z' then (c as int + 32) as char else c
  }

  /** `s.toLowerCase()`, restricted to ASCII letters. */
  function ToLower(s: string): (r: string)
    ensures |r| == |s|
    ensures forall i :: 0 <= i < |s| ==> r[i] == LowerChar(s[i])
  {
    seq(|s|, i requires 0 <= i < |s| => LowerChar(s[i]))
  }

  /** `args.join(sep)`. */
  function Join(args: seq<string>, sep: string): string {
    if |args| == 0 then ""
    else if |args| == 1 then args[0]
    else args[0] + sep + Join(args[1..], sep)
  }

  /** The longest prefix of `s` without `c`: what `s.split(c)[0]` gives. */
  function PrefixBefore(s: string, c: char): (r: string)
    ensures r <= s && c !in r
    ensures |r| < |s| ==> s[|r|] == c
  {
    if |s| == 0 || s[0] == c then [] else [s[0]] + PrefixBefore(s[1..], c)
  }

  /** Text without `c` followed by `c` is read back by `PrefixBefore`. */
  lemma {:induction false} PrefixBeforeConcat(h: string, rest: string, c: char)
    requires c !in h && |rest| > 0 && rest[0] == c
    ensures PrefixBefore(h + rest, c) == h
    decreases |h|
  {
    if h == [] {
      assert h + rest == rest;
    } else {
      assert (h + rest)[1..] == h[1..] + rest;
      PrefixBeforeConcat(h[1..], rest, c);
    }
  }

  /** A prefix is in particular an occurrence. */
  lemma StartsWithContains(s: string, p: string)
    requires StartsWith(s, p)
    ensures Contains(s, p)
  {
    assert OccursAt(s, p, 0);
  }

  /** Lower-casing twice is lower-casing once. */
  lemma ToLowerIdempotent(s: string)
    ensures ToLower(ToLower(s)) == ToLower(s)
  {
  }

  /** An occurrence survives putting text before and after it. */
  lemma ContainsInContext(a: string, s: string, b: string, sub: string)
    requires Contains(s, sub)
    ensures Contains(a + s + b, sub)
  {
    var i: nat :| i <= |s| && OccursAt(s, sub, i);
    assert (a + s + b)[|a| + i..|a| + i + |sub|] == s[i..i + |sub|];
    assert OccursAt(a + s + b, sub, |a| + i);
  }

  /** A word that lower-cases to `token`, anywhere in `s`, makes the
      lower-cased `s` contain `token`. */
  lemma ContainsLowered(a: string, word: string, b: string, token: string)
    requires ToLower(word) == token
    ensures Contains(ToLower(a + word + b), token)
  {
    assert ToLower(a + word + b) == ToLower(a) + ToLower(word) + ToLower(b);
    assert OccursAt(token, token, 0);
    ContainsInContext(ToLower(a), token, ToLower(b), token);
  }
}
