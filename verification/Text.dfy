/** Splitting strings once at a character, as every scope-determining parser of the service does. */
module Text {

  import opened Wrappers

  /** The first `c` of `s` stands at index `k`. */
  predicate FirstAt(s: string, c: char, k: nat) {
    k < |s| && s[k] == c && forall i | 0 <= i < k :: s[i] != c
  }

  /** The parts of `s` before and after its first `c`; `None` when `c` does not occur. */
  function SplitOnce(s: string, c: char): Option<(string, string)> {
    if k: nat :| k < |s| && FirstAt(s, c, k) then Some((s[..k], s[k + 1..])) else None
  }

  lemma {:induction false} SomeIsFirst(s: string, c: char, n: nat)
    requires n < |s| && s[n] == c
    ensures exists k: nat :: k <= n && FirstAt(s, c, k)
  {
    if i: nat :| i < n && s[i] == c {
      SomeIsFirst(s, c, i);
    } else {
      assert FirstAt(s, c, n);
    }
  }

  /** Splitting fails exactly when the character is absent; otherwise it cuts at its first occurrence. */
  lemma SplitOnceCuts(s: string, c: char)
    ensures SplitOnce(s, c).None? <==> c !in s
    ensures SplitOnce(s, c).Some? ==>
              var (before, after) := SplitOnce(s, c).value;
              c !in before && s == before + [c] + after
  {
    if n: nat :| n < |s| && s[n] == c {
      SomeIsFirst(s, c, n);
    }
  }

  /** The decomposition found by `SplitOnce` is the only one: splitting undoes joining. */
  lemma SplitOnceUndoesJoin(before: string, c: char, after: string)
    requires c !in before
    ensures SplitOnce(before + [c] + after, c) == Some((before, after))
  {
    var s := before + [c] + after;
    assert FirstAt(s, c, |before|);
    assert s[..|before|] == before && s[|before| + 1..] == after;
  }
}
