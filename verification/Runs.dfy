/** Runs of a state machine, whatever its steps: how the run of a list of events splits. */
module Runs {

  ghost function Fold<S, E>(step: (S, E) -> S, s: S, es: seq<E>): S
  {
    if es == [] then s else step(Fold(step, s, es[..|es| - 1]), es[|es| - 1])
  }

  lemma FoldSnoc<S, E>(step: (S, E) -> S, s: S, es: seq<E>, e: E)
    ensures Fold(step, s, es + [e]) == step(Fold(step, s, es), e)
  {
    assert (es + [e])[..|es|] == es;
  }

  lemma {:induction false} FoldCat<S, E>(step: (S, E) -> S, s: S, xs: seq<E>, ys: seq<E>)
    ensures Fold(step, s, xs + ys) == Fold(step, Fold(step, s, xs), ys)
    decreases |ys|
  {
    if ys == [] {
      assert xs + ys == xs;
    } else {
      var init, e := ys[..|ys| - 1], ys[|ys| - 1];
      FoldCat(step, s, xs, init);
      assert xs + ys == (xs + init) + [e];
      FoldSnoc(step, s, xs + init, e);
    }
  }

  lemma FoldTwo<S, E>(step: (S, E) -> S, s: S, e: E, f: E)
    ensures Fold(step, s, [e, f]) == step(step(s, e), f)
  {
    assert [] + [e] == [e] && [e] + [f] == [e, f];
    FoldSnoc(step, s, [], e);
    FoldSnoc(step, s, [e], f);
  }

  lemma FoldThree<S, E>(step: (S, E) -> S, s: S, e: E, f: E, g: E)
    ensures Fold(step, s, [e, f, g]) == step(step(step(s, e), f), g)
  {
    assert [e, f] + [g] == [e, f, g];
    FoldTwo(step, s, e, f);
    FoldSnoc(step, s, [e, f], g);
  }

  lemma FoldFour<S, E>(step: (S, E) -> S, s: S, e: E, f: E, g: E, h: E)
    ensures Fold(step, s, [e, f, g, h]) == step(step(step(step(s, e), f), g), h)
  {
    assert [e, f, g] + [h] == [e, f, g, h];
    FoldThree(step, s, e, f, g);
    FoldSnoc(step, s, [e, f, g], h);
  }

  lemma FoldBetween<S, E>(step: (S, E) -> S, s: S, e: E, f: E, middle: seq<E>, g: E, h: E, i: E)
    ensures Fold(step, s, [e, f] + middle + [g, h, i])
         == step(step(step(Fold(step, step(step(s, e), f), middle), g), h), i)
  {
    FoldTwo(step, s, e, f);
    FoldCat(step, s, [e, f], middle);
    FoldCat(step, s, [e, f] + middle, [g, h, i]);
    FoldThree(step, Fold(step, s, [e, f] + middle), g, h, i);
  }

  lemma FoldAround<S, E>(step: (S, E) -> S, s: S, e: E, f: E, g: E, middle: seq<E>, h: E, i: E)
    ensures Fold(step, s, [e, f, g] + middle + [h, i])
         == step(step(Fold(step, step(step(step(s, e), f), g), middle), h), i)
  {
    FoldThree(step, s, e, f, g);
    FoldCat(step, s, [e, f, g], middle);
    FoldCat(step, s, [e, f, g] + middle, [h, i]);
    FoldTwo(step, Fold(step, s, [e, f, g] + middle), h, i);
  }

  function Repeat<E>(e: E, k: nat): seq<E>
  {
    if k == 0 then [] else Repeat(e, k - 1) + [e]
  }

  ghost function Times<S, E>(step: (S, E) -> S, e: E, s: S, k: nat): S
  {
    if k == 0 then s else step(Times(step, e, s, k - 1), e)
  }

  lemma {:induction false} FoldRepeat<S, E>(step: (S, E) -> S, e: E, s: S, k: nat)
    ensures Fold(step, s, Repeat(e, k)) == Times(step, e, s, k)
    decreases k
  {
    if k > 0 {
      FoldRepeat(step, e, s, k - 1);
      FoldSnoc(step, s, Repeat(e, k - 1), e);
    }
  }

  /** What holds at the start, and after one more step whenever it held before, holds after any number of steps. */
  lemma {:induction false} TimesReach<S(!new), E>(step: (S, E) -> S, e: E, reached: (S, nat) -> bool, s: S, k: nat)
    requires reached(s, 0) && forall t: S, j: nat :: reached(t, j) ==> reached(step(t, e), j + 1)
    ensures reached(Times(step, e, s, k), k)
    decreases k
  {
    if k > 0 {
      TimesReach(step, e, reached, s, k - 1);
    }
  }
}
