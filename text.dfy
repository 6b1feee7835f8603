/**
 * Substring search over strings, in the sense of a regular-expression search
 * whose pattern is a literal (`re.search(p, s)`) or two literals joined by a
 * lazy wildcard that also crosses newlines (`re.search(p + ".*?" + q, s,
 * re.DOTALL)`). These are the only two pattern shapes the runner's message
 * tests use.
 */
module Text {

  /** `p` occurs in `s` starting at index `i`. */
  predicate OccursAt(s: string, p: string, i: nat)
  {
    i + |p| <= |s| && s[i..i + |p|] == p
  }

  /** A search for the literal `p` succeeds on `s`. */
  ghost predicate Contains(s: string, p: string)
  {
    exists i: nat :: OccursAt(s, p, i)
  }

  /** A search for `p`, then anything, then `q` succeeds on `s`. */
  ghost predicate ContainsInOrder(s: string, p: string, q: string)
  {
    exists i: nat, j: nat :: i + |p| <= j && OccursAt(s, p, i) && OccursAt(s, q, j)
  }

  /** Whatever is spliced between `a` and `b` can be found again. */
  lemma SplicedIsContained(a: string, p: string, b: string)
    ensures OccursAt(a + p + b, p, |a|)
    ensures Contains(a + p + b, p)
  {
    var s := a + p + b;
    assert s[|a|..|a| + |p|] == p;
    assert OccursAt(s, p, |a|);
  }

  /** Two pieces spliced in order, with anything between and after them, are found in order. */
  lemma SplicedInOrder(p: string, mid: string, q: string, tail: string)
    ensures ContainsInOrder(p + mid + q + tail, p, q)
  {
    var s := p + mid + q + tail;
    assert s[0..|p|] == p;
    assert s[|p| + |mid|..|p| + |mid| + |q|] == q;
    assert OccursAt(s, p, 0) && OccursAt(s, q, |p| + |mid|);
  }

  /** Searching for a literal succeeds on every string that contains it in order with another. */
  lemma InOrderContainsBoth(s: string, p: string, q: string)
    requires ContainsInOrder(s, p, q)
    ensures Contains(s, p) && Contains(s, q)
  {
  }

  /** A literal with a character that `s` lacks is not found in `s`. */
  lemma MissingCharNotContained(s: string, p: string, k: nat)
    requires k < |p| && p[k] !in s
    ensures !Contains(s, p)
  {
  }
}
