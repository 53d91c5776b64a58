/**
 * The JavaScript string tests the page performs, `endsWith` and `includes`,
 * on strings modelled as sequences of characters; `StartsWith` is a helper
 * for stating them and the gateway link.
 */
module Strings {

  /** s begins with p */
  predicate StartsWith(s: string, p: string) {
    |p| <= |s| && s[..|p|] == p
  }

  /** `s.endsWith(p)` */
  predicate EndsWith(s: string, p: string) {
    |p| <= |s| && s[|s| - |p|..] == p
  }

  /** `s.includes(p)`: p starts here or somewhere further on. */
  predicate Contains(s: string, p: string)
    decreases |s|
  {
    StartsWith(s, p) || (|s| > 0 && Contains(s[1..], p))
  }

  /** The reference meaning of `includes`: p occurs in s at index i. */
  predicate OccursAt(s: string, p: string, i: nat) {
    i + |p| <= |s| && s[i..i + |p|] == p
  }

  /** Any occurrence is found by Contains. */
  lemma {:induction false} ContainsAt(s: string, p: string, i: nat)
    requires OccursAt(s, p, i)
    ensures Contains(s, p)
    decreases i
  {
    if i > 0 {
      assert s[1..][i - 1..i - 1 + |p|] == s[i..i + |p|];
      ContainsAt(s[1..], p, i - 1);
    }
  }

  /** Contains agrees with its reference meaning, in both directions. */
  lemma {:induction false} ContainsIffOccurs(s: string, p: string)
    ensures Contains(s, p) <==> exists i: nat :: OccursAt(s, p, i)
    decreases |s|
  {
    if Contains(s, p) {
      if StartsWith(s, p) {
        assert OccursAt(s, p, 0);
      } else {
        ContainsIffOccurs(s[1..], p);
        var j: nat :| OccursAt(s[1..], p, j);
        assert s[1..][j..j + |p|] == s[j + 1..j + 1 + |p|];
        assert OccursAt(s, p, j + 1);
      }
    }
    if exists i: nat :: OccursAt(s, p, i) {
      var i: nat :| OccursAt(s, p, i);
      ContainsAt(s, p, i);
    }
  }

  /** Putting q in front of s keeps every occurrence that s has. */
  lemma {:induction false} ContainsAfterPrefix(q: string, s: string, p: string)
    requires Contains(s, p)
    ensures Contains(q + s, p)
  {
    ContainsIffOccurs(s, p);
    var i: nat :| OccursAt(s, p, i);
    assert (q + s)[|q| + i..|q| + i + |p|] == s[i..i + |p|];
    ContainsAt(q + s, p, |q| + i);
  }

  /** A prefix that never holds the first character of p adds no occurrence of p. */
  lemma {:induction false} NoOccurrenceFromPrefix(q: string, s: string, p: string)
    requires |p| > 0 && p[0] !in q
    requires !Contains(s, p)
    ensures !Contains(q + s, p)
    decreases |q|
  {
    if q == [] {
      assert q + s == s;
    } else {
      assert (q + s)[0] == q[0] != p[0];
      assert (q + s)[1..] == q[1..] + s;
      NoOccurrenceFromPrefix(q[1..], s, p);
    }
  }
}
