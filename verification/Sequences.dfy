/** Searching, summing and thresholds over sequences. */
module Sequences {

  lemma Rebracket<T>(a: seq<T>, b: seq<T>, c: seq<T>)
    ensures a + (b + c) == (a + b) + c
  {
  }

  ghost predicate Rising(positions: seq<nat>) {
    forall i, j :: 0 <= i < j < |positions| ==> positions[i] < positions[j]
  }

  ghost predicate Placed<T, U>(xs: seq<T>, p: T -> bool, f: T -> U, ys: seq<U>, positions: seq<nat>) {
    |positions| == |ys| &&
    forall i :: 0 <= i < |positions| ==> positions[i] < |xs| && p(xs[positions[i]]) && f(xs[positions[i]]) == ys[i]
  }

  ghost predicate Covers<T>(xs: seq<T>, p: T -> bool, positions: seq<nat>) {
    forall k :: 0 <= k < |xs| && p(xs[k]) ==> k in positions
  }

  /** `ys` holds `f` of exactly those elements that satisfy `p`, each once and in order: `positions` are
      where they stand. */
  ghost predicate Lists<T, U>(xs: seq<T>, p: T -> bool, f: T -> U, ys: seq<U>, positions: seq<nat>) {
    Rising(positions) && Placed(xs, p, f, ys, positions) && Covers(xs, p, positions)
  }

  ghost predicate ListsSome<T, U>(xs: seq<T>, p: T -> bool, f: T -> U, ys: seq<U>) {
    exists positions: seq<nat> :: Lists(xs, p, f, ys, positions)
  }

  /** `f` of the elements that satisfy `p`, in order. */
  function Picked<T, U>(p: T -> bool, f: T -> U, xs: seq<T>): seq<U> {
    if xs == [] then []
    else
      var init, last := Picked(p, f, xs[..|xs| - 1]), xs[|xs| - 1];
      if p(last) then init + [f(last)] else init
  }

  lemma PickedSnoc<T, U>(p: T -> bool, f: T -> U, xs: seq<T>, x: T)
    ensures Picked(p, f, xs + [x]) == Picked(p, f, xs) + if p(x) then [f(x)] else []
  {
    assert (xs + [x])[..|xs|] == xs;
  }

  lemma {:induction false} PickedAlike<T, U>(p: T -> bool, f: T -> U, q: T -> bool, g: T -> U, xs: seq<T>)
    requires forall i :: 0 <= i < |xs| ==> p(xs[i]) == q(xs[i]) && (p(xs[i]) ==> f(xs[i]) == g(xs[i]))
    ensures Picked(p, f, xs) == Picked(q, g, xs)
  {
    if xs != [] {
      var init, last := xs[..|xs| - 1], xs[|xs| - 1];
      PickedAlike(p, f, q, g, init);
    }
  }

  function Places<T>(p: T -> bool, xs: seq<T>): seq<nat> {
    if xs == [] then []
    else
      var init := Places(p, xs[..|xs| - 1]);
      if p(xs[|xs| - 1]) then init + [|xs| - 1] else init
  }

  lemma {:induction false} PlacesArePlaced<T, U>(p: T -> bool, f: T -> U, xs: seq<T>)
    ensures Placed(xs, p, f, Picked(p, f, xs), Places(p, xs))
    ensures Rising(Places(p, xs))
  {
    if xs != [] {
      var init := xs[..|xs| - 1];
      PlacesArePlaced(p, f, init);
      assert forall i :: 0 <= i < |Places(p, init)| ==> init[Places(p, init)[i]] == xs[Places(p, init)[i]];
    }
  }

  lemma {:induction false} PlacesCover<T>(p: T -> bool, xs: seq<T>, k: nat)
    requires k < |xs| && p(xs[k])
    ensures k in Places(p, xs)
  {
    var init := Places(p, xs[..|xs| - 1]);
    if k < |xs| - 1 {
      PlacesCover(p, xs[..|xs| - 1], k);
    } else {
      assert (init + [k])[|init|] == k;
    }
  }

  lemma PickedIsListed<T, U>(p: T -> bool, f: T -> U, xs: seq<T>)
    ensures ListsSome(xs, p, f, Picked(p, f, xs))
  {
    PlacesArePlaced(p, f, xs);
    forall k | 0 <= k < |xs| && p(xs[k])
      ensures k in Places(p, xs)
    {
      PlacesCover(p, xs, k);
    }
    assert Lists(xs, p, f, Picked(p, f, xs), Places(p, xs));
  }

  /** The first position after `from` (inclusive) whose element satisfies `p`, or the length. */
  function First<T>(p: T -> bool, xs: seq<T>, from: nat): (n: nat)
    requires from <= |xs|
    ensures from <= n <= |xs|
    ensures n < |xs| ==> p(xs[n])
    ensures forall i :: from <= i < n ==> !p(xs[i])
    decreases |xs|
  {
    if from == |xs| then |xs|
    else
      var n := First(p, xs[..|xs| - 1], from);
      if n < |xs| - 1 || p(xs[|xs| - 1]) then n else |xs|
  }

  lemma FirstSnoc<T>(p: T -> bool, xs: seq<T>, x: T, from: nat)
    requires from <= |xs|
    ensures First(p, xs + [x], from) ==
              if First(p, xs, from) < |xs| then First(p, xs, from) else if p(x) then |xs| else |xs| + 1
  {
    assert (xs + [x])[..|xs|] == xs;
  }

  function SumBy<T>(weight: T -> real, xs: seq<T>): real {
    if xs == [] then 0.0 else SumBy(weight, xs[..|xs| - 1]) + weight(xs[|xs| - 1])
  }

  lemma {:induction false} SumWithout<T>(weight: T -> real, xs: seq<T>, k: nat)
    requires k < |xs|
    ensures SumBy(weight, xs) == SumBy(weight, xs[..k] + xs[k + 1..]) + weight(xs[k])
  {
    var init := xs[..|xs| - 1];
    if k == |xs| - 1 {
      assert xs[..k] + xs[k + 1..] == init;
    } else {
      SumWithout(weight, init, k);
      var rest := xs[..k] + xs[k + 1..];
      assert rest[..|rest| - 1] == init[..k] + init[k + 1..];
    }
  }

  lemma RemoveOne<T>(xs: seq<T>, k: nat)
    requires k < |xs|
    ensures multiset(xs[..k] + xs[k + 1..]) == multiset(xs) - multiset{xs[k]}
  {
    assert xs == xs[..k] + [xs[k]] + xs[k + 1..];
  }

  lemma {:induction false} SumIgnoresOrder<T>(weight: T -> real, one: seq<T>, two: seq<T>)
    requires multiset(one) == multiset(two)
    ensures SumBy(weight, one) == SumBy(weight, two)
    decreases |one|
  {
    if one == [] {
      assert |two| == |multiset(two)| == 0;
    } else {
      var init, last := one[..|one| - 1], one[|one| - 1];
      assert one == init + [last];
      assert last in multiset(two);
      var k :| 0 <= k < |two| && two[k] == last;
      var rest := two[..k] + two[k + 1..];
      RemoveOne(two, k);
      assert multiset(init) == multiset(one) - multiset{last};
      SumIgnoresOrder(weight, init, rest);
      SumWithout(weight, two, k);
    }
  }

  /** Prefix `n` is the first whose total reaches the threshold. */
  ghost predicate FirstReaches<T>(total: seq<T> -> real, threshold: real, xs: seq<T>, n: nat) {
    && 0 < n <= |xs|
    && total(xs[..n]) >= threshold
    && forall k :: 0 <= k < n ==> total(xs[..k]) < threshold
  }

  /** One answer, given on the first prefix that reaches the threshold, and none before. */
  ghost predicate AnswersOnce<T, U>(total: seq<T> -> real, threshold: real, answer: seq<T> -> U, xs: seq<T>, answers: seq<U>) {
    if total(xs) < threshold then answers == [] && forall k :: 0 <= k < |xs| ==> total(xs[..k]) < threshold
    else exists n: nat :: FirstReaches(total, threshold, xs, n) && answers == [answer(xs[..n])]
  }

  /** Reading one more element: the answer stands if it was given, and is given now if the total only
      now reaches the threshold. */
  lemma AnswersOnceStep<T, U>(total: seq<T> -> real, threshold: real, answer: seq<T> -> U, xs: seq<T>, x: T, answers: seq<U>)
    requires AnswersOnce(total, threshold, answer, xs, answers)
    requires total(xs) <= total(xs + [x])
    ensures AnswersOnce(total, threshold, answer, xs + [x],
                        if total(xs) < threshold <= total(xs + [x]) then [answer(xs + [x])] else answers)
  {
    var ys := xs + [x];
    assert ys[..|xs|] == xs && ys[..|ys|] == ys;
    assert forall k {:trigger xs[..k]} {:trigger ys[..k]} :: 0 <= k <= |xs| ==> xs[..k] == ys[..k];
    if total(xs) >= threshold {
      var n: nat :| FirstReaches(total, threshold, xs, n) && answers == [answer(xs[..n])];
      assert FirstReaches(total, threshold, ys, n);
    } else if total(ys) >= threshold {
      assert FirstReaches(total, threshold, ys, |ys|);
    }
  }
}
