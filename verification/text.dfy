/**
 Text operations the dashboard relies on: ASCII lower-casing (Python's
 `str.lower` restricted to ASCII) and substring search (Python's `in` on
 strings). Both are written so that they also unfold on string literals.
 */
module Text {

  predicate IsUpper(c: char) {
    'A' <= c <= 'Z'
  }

  /** Lower-cases one ASCII letter; every other character is left alone. */
  function LowerChar(c: char): char {
    if IsUpper(c) then (c as int + 32) as char else c
  }

  /** Lower-cases every character of `s`. */
  function Lower(s: string): (r: string)
    ensures |r| == |s|
    ensures forall i :: 0 <= i < |s| ==> r[i] == LowerChar(s[i])
  {
    seq(|s|, i requires 0 <= i < |s| => LowerChar(s[i]))
  }

  /** Lower-casing twice is lower-casing once. */
  lemma LowerIdempotent(s: string)
    ensures Lower(Lower(s)) == Lower(s)
  {
    assert forall i :: 0 <= i < |s| ==> Lower(Lower(s))[i] == Lower(s)[i];
  }

  /** Lower-casing distributes over concatenation. */
  lemma LowerAppend(a: string, b: string)
    ensures Lower(a + b) == Lower(a) + Lower(b)
  {
    assert forall i :: 0 <= i < |a + b| ==> Lower(a + b)[i] == (Lower(a) + Lower(b))[i];
  }

  /** `p` occurs in `s` starting at position `i`. */
  ghost predicate OccursAt(s: string, p: string, i: int) {
    0 <= i && i + |p| <= |s| && s[i..i + |p|] == p
  }

  /** Characters `k..` of `p` agree with `s` from position `i + k` on. */
  predicate MatchesAt(s: string, p: string, i: nat, k: nat)
    requires i + |p| <= |s| && k <= |p|
    decreases |p| - k
  {
    k == |p| || (s[i + k] == p[k] && MatchesAt(s, p, i, k + 1))
  }

  /** `p` occurs in `s` at some position `i` or later. */
  predicate ContainsFrom(s: string, p: string, i: nat)
    decreases |s| - i
  {
    i + |p| <= |s| && (MatchesAt(s, p, i, 0) || ContainsFrom(s, p, i + 1))
  }

  /** Python's `p in s` for strings. */
  predicate Contains(s: string, p: string) {
    ContainsFrom(s, p, 0)
  }

  lemma {:induction false} MatchesAtIffSlice(s: string, p: string, i: nat, k: nat)
    requires i + |p| <= |s| && k <= |p|
    ensures MatchesAt(s, p, i, k) <==> s[i + k..i + |p|] == p[k..]
    decreases |p| - k
  {
    if k < |p| {
      MatchesAtIffSlice(s, p, i, k + 1);
      assert s[i + k..i + |p|] == [s[i + k]] + s[i + k + 1..i + |p|];
      assert p[k..] == [p[k]] + p[k + 1..];
    }
  }

  lemma {:induction false} ContainsFromIffOccurs(s: string, p: string, i: nat)
    ensures ContainsFrom(s, p, i) <==> exists j :: i <= j && OccursAt(s, p, j)
    decreases |s| - i
  {
    if i + |p| <= |s| {
      MatchesAtIffSlice(s, p, i, 0);
      ContainsFromIffOccurs(s, p, i + 1);
      if MatchesAt(s, p, i, 0) {
        assert OccursAt(s, p, i);
      }
      if exists j :: i <= j && OccursAt(s, p, j) {
        var j :| i <= j && OccursAt(s, p, j);
        if j == i {
          assert MatchesAt(s, p, i, 0);
        } else {
          assert i + 1 <= j;
        }
      }
    }
  }

  /** The executable search agrees with the definition of a substring. */
  lemma ContainsIffOccurs(s: string, p: string)
    ensures Contains(s, p) <==> exists j :: OccursAt(s, p, j)
  {
    ContainsFromIffOccurs(s, p, 0);
  }

  /** Index-by-index check that `s` lower-cases to `t`, from position `i` on. */
  predicate LowersToFrom(s: string, t: string, i: nat)
    requires |s| == |t| && i <= |s|
    decreases |s| - i
  {
    i == |s| || (LowerChar(s[i]) == t[i] && LowersToFrom(s, t, i + 1))
  }

  lemma {:induction false} LowersToFromAgrees(s: string, t: string, i: nat)
    requires |s| == |t| && i <= |s| && LowersToFrom(s, t, i)
    ensures forall k :: i <= k < |s| ==> Lower(s)[k] == t[k]
    decreases |s| - i
  {
    if i < |s| {
      LowersToFromAgrees(s, t, i + 1);
    }
  }

  /** Turns the character-wise check into an equation between strings. */
  lemma LowersTo(s: string, t: string)
    requires |s| == |t| && LowersToFrom(s, t, 0)
    ensures Lower(s) == t
  {
    LowersToFromAgrees(s, t, 0);
  }
}
