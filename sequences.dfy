/**
 * `Array.prototype.filter` on sequences, and the subsequence relation it
 * guarantees: the result keeps exactly the elements that pass, in their
 * original order.
 */
module Sequences {

  /** The elements of `s` that satisfy `p`, in order. */
  function Filter<T(!new)>(s: seq<T>, p: T -> bool): (r: seq<T>)
    ensures |r| <= |s|
    ensures forall x :: x in r <==> x in s && p(x)
    ensures forall i :: 0 <= i < |r| ==> p(r[i])
    ensures forall x :: multiset(r)[x] == if p(x) then multiset(s)[x] else 0
  {
    if |s| == 0 then []
    else
      assert s == [s[0]] + s[1..];
      if p(s[0]) then [s[0]] + Filter(s[1..], p)
      else Filter(s[1..], p)
  }

  /** No element occurs twice. */
  predicate NoDuplicates<T(==)>(s: seq<T>)
  {
    forall i, j :: 0 <= i < j < |s| ==> s[i] != s[j]
  }

  /**
   * `ts` followed by the elements of `us` it does not already hold, in
   * order and once each: what adding each of `us` in turn leaves in a
   * collection that ignores an element it already holds.
   */
  function AppendNew<T(==)>(ts: seq<T>, us: seq<T>): (r: seq<T>)
    ensures |ts| <= |r| <= |ts| + |us| && r[..|ts|] == ts
    ensures forall i :: 0 <= i < |r| ==> r[i] in ts || r[i] in us
    ensures forall i :: 0 <= i < |us| ==> us[i] in r
    ensures NoDuplicates(ts) ==> NoDuplicates(r)
    decreases |us|
  {
    if |us| == 0 then ts
    else
      var p := AppendNew(ts, us[..|us| - 1]);
      var u := us[|us| - 1];
      assert us == us[..|us| - 1] + [u];
      if u in p then p else p + [u]
  }

  /** Adding only elements already held changes nothing. */
  lemma {:induction false} AppendNewHeld<T>(ts: seq<T>, us: seq<T>)
    requires forall u :: u in us ==> u in ts
    ensures AppendNew(ts, us) == ts
    decreases |us|
  {
    if |us| > 0 {
      AppendNewHeld(ts, us[..|us| - 1]);
    }
  }

  /** Adding distinct elements none of which is held appends them all. */
  lemma {:induction false} AppendNewDistinct<T>(ts: seq<T>, us: seq<T>)
    requires NoDuplicates(ts + us)
    ensures AppendNew(ts, us) == ts + us
    decreases |us|
  {
    if |us| > 0 {
      var front := us[..|us| - 1];
      assert ts + us == (ts + front) + [us[|us| - 1]];
      assert NoDuplicates(ts + front) by {
        forall i, j | 0 <= i < j < |ts + front| ensures (ts + front)[i] != (ts + front)[j] {
          assert (ts + front)[i] == (ts + us)[i] && (ts + front)[j] == (ts + us)[j];
        }
      }
      AppendNewDistinct(ts, front);
      assert us[|us| - 1] !in ts + front by {
        forall k | 0 <= k < |ts + front| ensures (ts + front)[k] != us[|us| - 1] {
          assert (ts + front)[k] == (ts + us)[k] && us[|us| - 1] == (ts + us)[|ts + us| - 1];
        }
      }
    }
  }

  /** `s` is `t` with some elements left out, order kept. */
  predicate IsSubsequence<T(==)>(s: seq<T>, t: seq<T>)
    decreases |t|
  {
    |s| == 0 || (|t| > 0 && (if s[0] == t[0] then IsSubsequence(s[1..], t[1..]) else IsSubsequence(s, t[1..])))
  }

  /** Filtering keeps the passing elements in their order. */
  lemma {:induction false} FilterSubsequence<T(!new)>(s: seq<T>, p: T -> bool)
    ensures IsSubsequence(Filter(s, p), s)
  {
    if |s| > 0 {
      FilterSubsequence(s[1..], p);
      if !p(s[0]) {
        SubsequenceSkip(Filter(s[1..], p), s[0], s[1..]);
        assert [s[0]] + s[1..] == s;
      }
    }
  }

  /** A filter that every element passes keeps the whole sequence. */
  lemma {:induction false} FilterAll<T(!new)>(s: seq<T>, p: T -> bool)
    requires forall i :: 0 <= i < |s| ==> p(s[i])
    ensures Filter(s, p) == s
  {
    if |s| > 0 {
      FilterAll(s[1..], p);
      assert [s[0]] + s[1..] == s;
    }
  }

  /** A subsequence of the tail is a subsequence of the whole. */
  lemma {:induction false} SubsequenceSkip<T>(s: seq<T>, x: T, t: seq<T>)
    requires IsSubsequence(s, t)
    ensures IsSubsequence(s, [x] + t)
    decreases |t|, 1
  {
    assert ([x] + t)[1..] == t;
    if |s| > 0 && s[0] == x {
      SubsequenceDrop(s, t);
    }
  }

  /** Dropping the head of a subsequence keeps it a subsequence. */
  lemma {:induction false} SubsequenceDrop<T>(s: seq<T>, t: seq<T>)
    requires |s| > 0 && IsSubsequence(s, t)
    ensures IsSubsequence(s[1..], t)
    decreases |t|, 0
  {
    if s[0] != t[0] {
      SubsequenceDrop(s, t[1..]);
    }
    if |s[1..]| > 0 {
      SubsequenceSkip(s[1..], t[0], t[1..]);
      assert [t[0]] + t[1..] == t;
    }
  }
}
