// Counting and searching over the fixed tables the firmware keeps
// (switches, encoders, pots, expander chips).
module Tables {

  /** The number of entries of s that satisfy p, counted front to back as the source's loops do. */
  function CountWhere<T>(s: seq<T>, p: T -> bool): (n: nat)
    ensures n <= |s|
  {
    if s == [] then 0 else CountWhere(s[..|s| - 1], p) + (if p(s[|s| - 1]) then 1 else 0)
  }

  /** The positions of s whose entries satisfy p. */
  function Where<T>(s: seq<T>, p: T -> bool): set<nat> {
    set k: nat | k < |s| && p(s[k])
  }

  /** The count is the number of positions that satisfy p. */
  lemma {:induction false} CountWhereCounts<T>(s: seq<T>, p: T -> bool)
    ensures CountWhere(s, p) == |Where(s, p)|
  {
    if s != [] {
      var n := |s| - 1;
      var t := s[..n];
      CountWhereCounts(t, p);
      var w := Where(t, p);
      assert n !in w;
      forall x: nat | x < n ensures (x in Where(s, p)) == (x in w) {
        assert s[x] == t[x];
      }
      if p(s[n]) {
        assert Where(s, p) == w + {n};
      } else {
        assert Where(s, p) == w;
      }
    }
  }

  /** The count is 0 exactly when no entry satisfies p. */
  lemma CountWhereZero<T>(s: seq<T>, p: T -> bool)
    ensures CountWhere(s, p) == 0 <==> forall k :: 0 <= k < |s| ==> !p(s[k])
  {
    CountWhereCounts(s, p);
    if CountWhere(s, p) == 0 {
      forall k | 0 <= k < |s| ensures !p(s[k]) {
        assert (k in Where(s, p)) == p(s[k]);
      }
    } else {
      var k :| k in Where(s, p);
    }
  }

  /** One more entry, as a loop's next iteration sees it. */
  lemma CountWhereStep<T>(s: seq<T>, i: nat, p: T -> bool)
    requires i < |s|
    ensures CountWhere(s[..i + 1], p) == CountWhere(s[..i], p) + (if p(s[i]) then 1 else 0)
  {
    assert s[..i + 1][..i] == s[..i];
  }
}
