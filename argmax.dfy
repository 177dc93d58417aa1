/**
 * Decoding a probability vector into a label position the way both
 * recorders do it: the maximum (`Math.max(...probs)`) and then the first
 * position holding it (`probs.indexOf(...)`).
 */
module Argmax {

  /** The largest probability of a non-empty vector. */
  function Max(p: seq<real>): (m: real)
    requires |p| > 0
    ensures m in p
    ensures forall j :: 0 <= j < |p| ==> p[j] <= m
  {
    if |p| == 1 then p[0]
    else
      var rest := Max(p[1..]);
      if p[0] >= rest then p[0] else rest
  }

  /** The first position of `x` in `p`, or -1 when `x` does not occur. */
  function IndexOf(p: seq<real>, x: real): (i: int)
    ensures -1 <= i < |p|
    ensures i == -1 <==> x !in p
    ensures i >= 0 ==> p[i] == x && forall j :: 0 <= j < i ==> p[j] != x
  {
    if |p| == 0 then -1
    else if p[0] == x then 0
    else
      var k := IndexOf(p[1..], x);
      if k == -1 then -1 else k + 1
  }

  /** Position `i` holds the maximum and no earlier position does. */
  ghost predicate IsFirstMax(p: seq<real>, i: nat)
  {
    && i < |p|
    && (forall j :: 0 <= j < |p| ==> p[j] <= p[i])
    && (forall j :: 0 <= j < i ==> p[j] < p[i])
  }

  /** The first position of the maximum. */
  function ArgMax(p: seq<real>): (i: nat)
    requires |p| > 0
    ensures IsFirstMax(p, i)
  {
    IndexOf(p, Max(p))
  }

  /** The two properties of ArgMax single out one position. */
  lemma ArgMaxUnique(p: seq<real>, i: nat)
    requires IsFirstMax(p, i)
    ensures ArgMax(p) == i
  {
  }
}
