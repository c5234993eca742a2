/** The bounded first-in-first-out list both memory buffers use: append at the tail, then
    `pop(0)` once when the list has grown past its capacity. */
module Fifo {

  /** Append `x`, then drop the single oldest element if the list is now longer than `cap`.
      Only one element is ever dropped, so a list that was already over capacity stays over it. */
  function Push<T>(q: seq<T>, x: T, cap: int): (r: seq<T>)
    ensures |r| == (if |q| + 1 > cap then |q| else |q| + 1)
    ensures r == (q + [x])[|q| + 1 - |r|..]
    ensures |q| <= cap ==> |r| <= cap
    ensures cap >= 1 ==> |r| > 0 && r[|r| - 1] == x
  {
    var full := q + [x];
    if |full| > cap then full[1..] else full
  }

  /** Push every element of `xs`, oldest first. */
  function PushAll<T>(q: seq<T>, xs: seq<T>, cap: int): seq<T>
    decreases |xs|
  {
    if |xs| == 0 then q else PushAll(Push(q, xs[0], cap), xs[1..], cap)
  }

  /** A list that starts within capacity always holds the newest `cap` elements seen: a sliding window. */
  lemma {:induction false} PushAllWindow<T>(q: seq<T>, xs: seq<T>, cap: nat)
    requires |q| <= cap
    ensures var drop := if |q| + |xs| > cap then |q| + |xs| - cap else 0;
      PushAll(q, xs, cap) == (q + xs)[drop..]
    decreases |xs|
  {
    if |xs| > 0 {
      var rest := xs[1..];
      var d1 := if |q| + 1 > cap then 1 else 0;
      var q' := Push(q, xs[0], cap);
      assert |q'| == |q| + 1 - d1;
      assert q' + rest == (q + xs)[d1..] by {
        assert q' == (q + [xs[0]])[d1..];
        HeadThenRest(q, xs);
        DropThenAppend(q + [xs[0]], rest, d1);
      }
      PushAllWindow(q', rest, cap);
      var d2 := if |q'| + |rest| > cap then |q'| + |rest| - cap else 0;
      DropTwice(q + xs, d1, d2);
    } else {
      assert q + xs == q;
    }
  }

  lemma HeadThenRest<T>(q: seq<T>, xs: seq<T>)
    requires |xs| > 0
    ensures q + [xs[0]] + xs[1..] == q + xs
  {
    assert xs == [xs[0]] + xs[1..];
  }

  lemma DropThenAppend<T>(a: seq<T>, b: seq<T>, d: nat)
    requires d <= |a|
    ensures a[d..] + b == (a + b)[d..]
  {
  }

  lemma DropTwice<T>(s: seq<T>, d1: nat, d2: nat)
    requires d1 + d2 <= |s|
    ensures s[d1..][d2..] == s[d1 + d2..]
  {
  }
}
