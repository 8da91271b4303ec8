/** Reference arrays: the ordered id sequences that a board keeps of its lists and
    a list keeps of its tasks, and the two edits the route handlers make to them:
    `push` of one id and `filter` dropping every occurrence of one id. */
module Refs {

  /** `s.filter(id => id !== x)`: every occurrence of `x` dropped, the rest kept in order. */
  function Without<T(==,!new)>(s: seq<T>, x: T): (r: seq<T>)
    ensures x !in r
    ensures forall y :: y != x ==> (y in r <==> y in s)
    ensures |r| <= |s|
    ensures |r| == |s| <==> x !in s
  {
    if s == [] then []
    else if s[0] == x then Without(s[1..], x)
    else [s[0]] + Without(s[1..], x)
  }

  /** `r` can be obtained from `s` by deleting elements, keeping the order of the rest. */
  ghost predicate Subseq<T>(r: seq<T>, s: seq<T>)
    decreases |s|
  {
    if r == [] then true
    else if s == [] then false
    else if r[0] == s[0] then Subseq(r[1..], s[1..])
    else Subseq(r, s[1..])
  }

  /** No id occurs twice. */
  ghost predicate NoDup<T(!new)>(s: seq<T>) {
    forall y :: multiset(s)[y] <= 1
  }

  /** Filtering keeps the relative order of the ids it keeps. */
  lemma {:induction false} WithoutIsSubseq<T(!new)>(s: seq<T>, x: T)
    ensures Subseq(Without(s, x), s)
  {
    if s != [] {
      WithoutIsSubseq(s[1..], x);
      var r := Without(s, x);
      if s[0] != x {
        assert r[0] == s[0] && r[1..] == Without(s[1..], x);
      } else if r != [] {
        assert r[0] != s[0];
      }
    }
  }

  /** Filtering removes exactly the occurrences of `x`: every other id keeps its count. */
  lemma {:induction false} WithoutCounts<T(!new)>(s: seq<T>, x: T)
    ensures multiset(Without(s, x)) == multiset(s)[x := 0]
  {
    if s != [] {
      WithoutCounts(s[1..], x);
      assert s == [s[0]] + s[1..];
      assert multiset(s) == multiset{s[0]} + multiset(s[1..]);
      if s[0] != x {
        assert multiset(Without(s, x)) == multiset{s[0]} + multiset(Without(s[1..], x));
      }
    }
  }

  /** Filtering out an id that does not occur changes nothing. */
  lemma {:induction false} WithoutAbsent<T(!new)>(s: seq<T>, x: T)
    requires x !in s
    ensures Without(s, x) == s
  {
    if s != [] {
      WithoutAbsent(s[1..], x);
      assert s == [s[0]] + s[1..];
    }
  }

  /** Filtering out an id just pushed undoes the push, when the id was not there before. */
  lemma {:induction false} WithoutPushed<T(!new)>(s: seq<T>, x: T)
    requires x !in s
    ensures Without(s + [x], x) == s
  {
    if s == [] {
      assert [x][1..] == [];
    } else {
      WithoutPushed(s[1..], x);
      assert (s + [x])[1..] == s[1..] + [x];
      assert s == [s[0]] + s[1..];
    }
  }

  /** Filtering twice by the same id is filtering once. */
  lemma WithoutIdempotent<T(!new)>(s: seq<T>, x: T)
    ensures Without(Without(s, x), x) == Without(s, x)
  {
    WithoutAbsent(Without(s, x), x);
  }

  /** Filtering cannot introduce a duplicate. */
  lemma WithoutKeepsNoDup<T(!new)>(s: seq<T>, x: T)
    requires NoDup(s)
    ensures NoDup(Without(s, x))
  {
    WithoutCounts(s, x);
  }

  /** Pushing an id that is not yet present keeps the ids distinct, and it then occurs once. */
  lemma PushKeepsNoDup<T(!new)>(s: seq<T>, x: T)
    requires NoDup(s) && x !in s
    ensures NoDup(s + [x]) && multiset(s + [x])[x] == 1
  {
    assert multiset(s + [x]) == multiset(s) + multiset{x};
  }

  /** The filtered sequence is fully determined by order and counts: it is the only
      subsequence of `s` that has every id of `s` except `x`, as often as `s` has it. */
  lemma {:induction false} WithoutUnique<T(!new)>(s: seq<T>, x: T, r: seq<T>)
    requires Subseq(r, s) && multiset(r) == multiset(s)[x := 0]
    ensures r == Without(s, x)
  {
    if s == [] {
      assert r == [];
    } else {
      var t := s[1..];
      assert s == [s[0]] + t;
      assert multiset(s) == multiset{s[0]} + multiset(t);
      if r == [] {
        assert multiset(s)[x := 0][s[0]] == 0;
        assert s[0] == x;
        assert multiset(t)[x := 0] == multiset(s)[x := 0];
        WithoutUnique(t, x, r);
      } else if r[0] == s[0] {
        assert r == [r[0]] + r[1..];
        assert multiset(r) == multiset{r[0]} + multiset(r[1..]);
        assert s[0] != x by { assert r[0] in multiset(r); }
        assert multiset(r[1..]) == multiset(t)[x := 0] by {
          forall y ensures multiset(r[1..])[y] == multiset(t)[x := 0][y] {
            if y == s[0] {
              assert multiset(r)[y] == multiset(r[1..])[y] + 1;
            } else if y != x {
              assert multiset(r)[y] == multiset(r[1..])[y];
            }
          }
        }
        WithoutUnique(t, x, r[1..]);
      } else {
        // r skips s[0], so s[0] has no copy to spare: it must be x.
        SubseqCount(r, t, s[0]);
        assert s[0] == x;
        assert multiset(r) == multiset(t)[x := 0];
        WithoutUnique(t, x, r);
      }
    }
  }

  /** A subsequence has no more copies of any id than the sequence it is taken from. */
  lemma {:induction false} SubseqCount<T(!new)>(r: seq<T>, s: seq<T>, y: T)
    requires Subseq(r, s)
    ensures multiset(r)[y] <= multiset(s)[y]
    decreases |s|
  {
    if r != [] {
      assert s == [s[0]] + s[1..];
      assert multiset(s) == multiset{s[0]} + multiset(s[1..]);
      if r[0] == s[0] {
        SubseqCount(r[1..], s[1..], y);
        assert r == [r[0]] + r[1..];
        assert multiset(r) == multiset{r[0]} + multiset(r[1..]);
      } else {
        SubseqCount(r, s[1..], y);
      }
    }
  }
}
