/**
 * The `java.lang.String` operations that the instrumentation predicates use:
 * `startsWith`, `endsWith`, `contains`, `toLowerCase` (ASCII letters only) and
 * `replace(of, "")`, together with a reference count of non-overlapping
 * occurrences that `countOccurrences` is proved to compute.
 */
module Strings {

  /** A string `countOccurrences` can divide by: its length is never zero. */
  type NonEmptyString = s: string | |s| > 0 witness "$"

  /** `p[j..]` lies in `s` at offset `i + j`, compared one character at a time. */
  predicate MatchesFrom(s: string, p: string, i: nat, j: nat)
    decreases |p| - j
  {
    j >= |p| || (i + j < |s| && s[i + j] == p[j] && MatchesFrom(s, p, i, j + 1))
  }

  /** `s.startsWith(p, i)`: `p` occurs in `s` at offset `i`. */
  predicate OccursAt(s: string, p: string, i: nat) {
    MatchesFrom(s, p, i, 0)
  }

  /** `s.startsWith(p)`. */
  predicate StartsWith(s: string, p: string) {
    OccursAt(s, p, 0)
  }

  /** Comparing from `j` on agrees with every remaining character agreeing. */
  lemma {:induction false} MatchesFromAll(s: string, p: string, i: nat, j: nat)
    ensures MatchesFrom(s, p, i, j)
        <==> (j >= |p| || i + |p| <= |s|) && forall k | j <= k < |p| :: s[i + k] == p[k]
    decreases |p| - j
  {
    if j < |p| {
      MatchesFromAll(s, p, i, j + 1);
      if i + |p| <= |s| && forall k | j <= k < |p| :: s[i + k] == p[k] {
        assert s[i + j] == p[j];
      }
    }
  }

  /** `OccursAt` is exactly "the slice of `s` at `i` is `p`". */
  lemma OccursAtIsSlice(s: string, p: string, i: nat)
    requires i <= |s|
    ensures OccursAt(s, p, i) <==> i + |p| <= |s| && s[i..i + |p|] == p
  {
    MatchesFromAll(s, p, i, 0);
    if i + |p| <= |s| {
      var w := s[i..i + |p|];
      assert |w| == |p|;
      assert forall k | 0 <= k < |p| :: w[k] == s[i + k];
      if OccursAt(s, p, i) {
        assert forall k | 0 <= k < |p| :: w[k] == p[k];
      }
    }
  }

  /** `StartsWith` is exactly "p is a prefix of s". */
  lemma StartsWithIsPrefix(s: string, p: string)
    ensures StartsWith(s, p) <==> |p| <= |s| && s[..|p|] == p
  {
    OccursAtIsSlice(s, p, 0);
  }

  /** A prefix of `s` is recognised as one. */
  lemma PrefixStartsWith(s: string, p: string)
    requires |p| <= |s| && s[..|p|] == p
    ensures StartsWith(s, p)
  {
    StartsWithIsPrefix(s, p);
  }

  /** One differing character at position `k` rules a prefix out. */
  lemma MismatchNotStartsWith(s: string, p: string, k: nat)
    requires k < |p| && (k >= |s| || s[k] != p[k])
    ensures !StartsWith(s, p)
  {
    MatchesFromAll(s, p, 0, 0);
  }

  /** A string that starts with `p` cannot start with a `q` that differs from `p` at `k`. */
  lemma PrefixesExclude(s: string, p: string, q: string, k: nat)
    requires StartsWith(s, p)
    requires k < |p| && k < |q| && p[k] != q[k]
    ensures !StartsWith(s, q)
  {
    MatchesFromAll(s, p, 0, 0);
    MismatchNotStartsWith(s, q, k);
  }

  /** A prefix of a prefix is a prefix. */
  lemma StartsWithTransitive(s: string, p: string, q: string)
    requires StartsWith(s, p) && StartsWith(p, q)
    ensures StartsWith(s, q)
  {
    MatchesFromAll(s, p, 0, 0);
    MatchesFromAll(p, q, 0, 0);
    MatchesFromAll(s, q, 0, 0);
  }

  /** From position `k` on, `p` and `q` differ somewhere both are defined. */
  predicate DivergeFrom(p: string, q: string, k: nat)
    decreases |p| - k
  {
    k < |p| && k < |q| && (p[k] != q[k] || DivergeFrom(p, q, k + 1))
  }

  /** Neither of `p` and `q` is a prefix of the other. */
  predicate Diverge(p: string, q: string) {
    DivergeFrom(p, q, 0)
  }

  /** Diverging prefixes exclude each other. */
  lemma {:induction false} DivergeFromExcludes(s: string, p: string, q: string, k: nat)
    requires StartsWith(s, p) && DivergeFrom(p, q, k)
    ensures !StartsWith(s, q)
    decreases |p| - k
  {
    if p[k] != q[k] {
      PrefixesExclude(s, p, q, k);
    } else {
      DivergeFromExcludes(s, p, q, k + 1);
    }
  }

  lemma DivergeExcludes(s: string, p: string, q: string)
    requires StartsWith(s, p) && Diverge(p, q)
    ensures !StartsWith(s, q)
  {
    DivergeFromExcludes(s, p, q, 0);
  }

  /** `s.endsWith(p)`. */
  predicate EndsWith(s: string, p: string) {
    |p| <= |s| && s[|s| - |p|..] == p
  }

  /** `s.endsWith(p)` is `s.startsWith(p, |s| - |p|)`: `p` occurs where it would end `s`. */
  lemma EndsWithIsOccursAtEnd(s: string, p: string)
    ensures EndsWith(s, p) <==> |p| <= |s| && OccursAt(s, p, |s| - |p|)
  {
    if |p| <= |s| {
      OccursAtIsSlice(s, p, |s| - |p|);
    }
  }

  /** `s.endsWith(p)` holds exactly when the last `|p|` characters of `s` agree with `p`
      one by one. */
  lemma EndsWithIsSuffix(s: string, p: string)
    ensures EndsWith(s, p)
        <==> |p| <= |s| && forall k | 0 <= k < |p| :: s[|s| - |p| + k] == p[k]
  {
    if |p| <= |s| && forall k | 0 <= k < |p| :: s[|s| - |p| + k] == p[k] {
      assert s[|s| - |p|..] == p;
    }
  }

  /** A suffix of a suffix is a suffix. */
  lemma EndsWithTransitive(s: string, p: string, q: string)
    requires EndsWith(s, p) && EndsWith(p, q)
    ensures EndsWith(s, q)
  {
    EndsWithIsSuffix(s, p);
    EndsWithIsSuffix(p, q);
    EndsWithIsSuffix(s, q);
    forall k | 0 <= k < |q|
      ensures s[|s| - |q| + k] == q[k]
    {
      assert s[|s| - |p| + (|p| - |q| + k)] == p[|p| - |q| + k];
    }
  }

  /** `t` occurs in `s` at offset `i` or later, tried from the left. */
  predicate ContainsFrom(s: string, t: string, i: nat)
    decreases |s| - i
  {
    OccursAt(s, t, i) || (i < |s| && ContainsFrom(s, t, i + 1))
  }

  /** `s.contains(t)`. */
  predicate Contains(s: string, t: string) {
    ContainsFrom(s, t, 0)
  }

  lemma {:induction false} ContainsFromIsOccurrence(s: string, t: string, i: nat)
    requires i <= |s|
    ensures ContainsFrom(s, t, i) <==> exists k :: i <= k <= |s| && OccursAt(s, t, k)
    decreases |s| - i
  {
    if i < |s| {
      ContainsFromIsOccurrence(s, t, i + 1);
      if k :| i <= k <= |s| && OccursAt(s, t, k) {
        if k > i {
          assert i + 1 <= k <= |s| && OccursAt(s, t, k);
        }
      }
    }
  }

  /** `Contains` holds exactly when `t` occurs at some position of `s`. */
  lemma ContainsIsOccurrence(s: string, t: string)
    ensures Contains(s, t) <==> exists i :: 0 <= i <= |s| && OccursAt(s, t, i)
  {
    ContainsFromIsOccurrence(s, t, 0);
  }

  /** An occurrence at a position of `s` is a containment. */
  lemma OccurrenceContains(s: string, t: string, i: nat)
    requires i <= |s| && OccursAt(s, t, i)
    ensures Contains(s, t)
  {
    ContainsIsOccurrence(s, t);
  }

  /** A string that lacks one of the characters of `t` does not contain `t`. */
  lemma MissingCharNotContained(s: string, t: string, j: nat)
    requires j < |t| && forall i | 0 <= i < |s| :: s[i] != t[j]
    ensures !Contains(s, t)
  {
    ContainsIsOccurrence(s, t);
    if Contains(s, t) {
      var i :| 0 <= i <= |s| && OccursAt(s, t, i);
      MatchesFromAll(s, t, i, 0);
    }
  }

  /** `Character.toLowerCase` restricted to ASCII letters. */
  function LowerChar(c: char): (r: char)
    ensures !('A' <= r <= 'Z')
  {
    if 'A' <= c <= 'Z' then (c as int + 32) as char else c
  }

  /** `c` and `d` are the same letter in either ASCII case, or the same character. */
  predicate SameIgnoringCase(c: char, d: char) {
    || c == d
    || ('A' <= c <= 'Z' && d as int == c as int + 32)
    || ('A' <= d <= 'Z' && c as int == d as int + 32)
  }

  /** Lower-casing is a fixed point on its results, and two characters lower-case
      alike exactly when they are equal ignoring ASCII case. */
  lemma LowerCharIgnoresCase(c: char, d: char)
    ensures LowerChar(LowerChar(c)) == LowerChar(c)
    ensures LowerChar(c) == LowerChar(d) <==> SameIgnoringCase(c, d)
  {
  }

  /** `s.toLowerCase()` with ASCII case mapping, character by character. */
  function ToLower(s: string): (r: string) {
    seq(|s|, i requires 0 <= i < |s| => LowerChar(s[i]))
  }

  /** `ToLower` maps each character on its own and keeps the length. */
  lemma ToLowerAt(s: string, k: nat)
    requires k < |s|
    ensures |ToLower(s)| == |s| && ToLower(s)[k] == LowerChar(s[k])
  {
  }

  /** A string without capital letters is its own lower case. */
  lemma ToLowerOfLower(s: string)
    requires forall i | 0 <= i < |s| :: !('A' <= s[i] <= 'Z')
    ensures ToLower(s) == s
  {
  }

  /** Lower-casing twice is lower-casing once. */
  lemma ToLowerIdempotent(s: string)
    ensures ToLower(ToLower(s)) == ToLower(s)
  {
  }

  /** Lower-casing preserves an occurrence at a given offset. */
  lemma OccursAtToLower(s: string, p: string, i: nat)
    requires OccursAt(s, p, i)
    ensures OccursAt(ToLower(s), ToLower(p), i)
  {
    MatchesFromAll(s, p, i, 0);
    MatchesFromAll(ToLower(s), ToLower(p), i, 0);
  }

  /** Lower-casing preserves a prefix. */
  lemma StartsWithToLower(s: string, p: string)
    requires StartsWith(s, p)
    ensures StartsWith(ToLower(s), ToLower(p))
  {
    OccursAtToLower(s, p, 0);
  }

  /** Lower-casing preserves an occurrence: a case-sensitive hit is a case-insensitive hit. */
  lemma ContainsToLower(s: string, t: string)
    requires Contains(s, t)
    ensures Contains(ToLower(s), ToLower(t))
  {
    ContainsIsOccurrence(s, t);
    ContainsIsOccurrence(ToLower(s), ToLower(t));
    var i :| 0 <= i <= |s| && OccursAt(s, t, i);
    OccursAtToLower(s, t, i);
  }

  /** `s.replace(t, "")`: removes the non-overlapping occurrences of `t`, scanning from the left. */
  function RemoveAll(s: string, t: NonEmptyString): (r: string)
    decreases s
  {
    if |s| < |t| then s
    else if StartsWith(s, t) then RemoveAll(s[|t|..], t)
    else [s[0]] + RemoveAll(s[1..], t)
  }

  /** The number of non-overlapping occurrences of `t` in `s`, counted from the left. */
  function Occurrences(s: string, t: NonEmptyString): (r: nat)
    decreases s
  {
    if |s| < |t| then 0
    else if StartsWith(s, t) then 1 + Occurrences(s[|t|..], t)
    else Occurrences(s[1..], t)
  }

  /** Every occurrence that `replace` removes takes `|t|` characters with it. */
  lemma {:induction false} RemoveAllLength(s: string, t: NonEmptyString)
    ensures |s| - |RemoveAll(s, t)| == |t| * Occurrences(s, t)
    decreases s
  {
    if |s| < |t| {
    } else if StartsWith(s, t) {
      var rest := s[|t|..];
      RemoveAllLength(rest, t);
      assert |rest| == |s| - |t|;
      assert |t| * Occurrences(s, t) == |t| + |t| * Occurrences(rest, t);
    } else {
      RemoveAllLength(s[1..], t);
    }
  }

  /** For a one-character `t`, the occurrences are the copies of that character. */
  lemma {:induction false} OccurrencesOfChar(s: string, c: char)
    ensures Occurrences(s, [c]) == multiset(s)[c]
    decreases s
  {
    if s != [] {
      OccurrencesOfChar(s[1..], c);
      assert [c][1..] == [];
      MatchesFromAll(s, [c], 0, 0);
      assert StartsWith(s, [c]) <==> s[0] == c;
      assert s == [s[0]] + s[1..];
      assert multiset(s) == multiset([s[0]]) + multiset(s[1..]);
    }
  }
}
