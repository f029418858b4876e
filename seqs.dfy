/**
 * Sequence operations shared by the model: the order-preserving filter behind
 * JavaScript's `Array.filter` and Python's list comprehensions with a condition,
 * and Python's slice `s[k:]`, including its negative-index rules.
 */
module Seqs {

  /** The elements of `s` that satisfy `p`, in their original order. */
  function Filter<T(!new)>(s: seq<T>, p: T -> bool): (r: seq<T>)
    ensures |r| <= |s|
    ensures forall x :: x in r <==> x in s && p(x)
    ensures forall k :: 0 <= k < |r| ==> p(r[k])
  {
    if s == [] then [] else (if p(s[0]) then [s[0]] else []) + Filter(s[1..], p)
  }

  /** Filtering distributes over concatenation: the kept elements stay in order. */
  lemma {:induction false} FilterAppend<T(!new)>(a: seq<T>, b: seq<T>, p: T -> bool)
    ensures Filter(a + b, p) == Filter(a, p) + Filter(b, p)
  {
    if a == [] {
      assert a + b == b;
    } else {
      assert (a + b)[0] == a[0];
      assert (a + b)[1..] == a[1..] + b;
      FilterAppend(a[1..], b, p);
    }
  }

  /** A filter that every element passes returns its input. */
  lemma {:induction false} FilterKeepsAll<T(!new)>(s: seq<T>, p: T -> bool)
    requires forall k :: 0 <= k < |s| ==> p(s[k])
    ensures Filter(s, p) == s
  {
    if s != [] {
      assert p(s[0]);
      FilterKeepsAll(s[1..], p);
    }
  }

  /** Two distinct positions that pass the filter give a result of length at least two. */
  lemma {:induction false} FilterTwo<T(!new)>(s: seq<T>, p: T -> bool, i: nat, j: nat)
    requires i < j < |s| && p(s[i]) && p(s[j])
    ensures |Filter(s, p)| >= 2
  {
    if i == 0 {
      assert s[1..][j - 1] == s[j];
      assert s[j] in Filter(s[1..], p);
    } else {
      assert s[1..][i - 1] == s[i] && s[1..][j - 1] == s[j];
      FilterTwo(s[1..], p, i - 1, j - 1);
    }
  }

  /** The start index Python uses for `s[k:]` on a list of length `len`. */
  function SliceStart(len: nat, k: int): (start: nat)
    ensures start <= len
    ensures 0 <= k <= len ==> start == k
    ensures k > len ==> start == len
    ensures -(len as int) <= k < 0 ==> start == len + k
    ensures k < -(len as int) ==> start == 0
  {
    if k < 0 then (if len + k < 0 then 0 else len + k)
    else if k > len then len
    else k
  }

  /** Python's `s[-limit:]`: for a positive limit the last `limit` elements (all of
      them when there are fewer); for `limit == 0`, since `-0 == 0`, the whole
      sequence; for a negative limit, everything after the first `-limit`. */
  function PyTail<T>(s: seq<T>, limit: int): (r: seq<T>)
    ensures limit == 0 ==> r == s
    ensures 0 < limit <= |s| ==> |r| == limit && r == s[|s| - limit..]
    ensures limit > |s| ==> r == s
    ensures limit < 0 ==> r == s[if -limit < |s| then -limit else |s|..]
  {
    s[SliceStart(|s|, -limit)..]
  }
}
