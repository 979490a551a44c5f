/** Sums over multisets: the network is an unordered bag, and the invariants of the delivery
protocol count what is in it. */
module Bags {

  ghost function Sum<T(!new)>(weight: T -> nat, bag: multiset<T>): nat
    decreases |bag|
  {
    if bag == multiset{} then 0
    else
      var x :| x in bag;
      weight(x) + Sum(weight, bag - multiset{x})
  }

  /** The element taken out first does not matter. */
  lemma {:induction false} SumRemove<T(!new)>(weight: T -> nat, bag: multiset<T>, x: T)
    requires x in bag
    ensures Sum(weight, bag) == weight(x) + Sum(weight, bag - multiset{x})
    decreases |bag|
  {
    var y :| y in bag && Sum(weight, bag) == weight(y) + Sum(weight, bag - multiset{y});
    if y != x {
      SumRemove(weight, bag - multiset{y}, x);
      SumRemove(weight, bag - multiset{x}, y);
      assert bag - multiset{y} - multiset{x} == bag - multiset{x} - multiset{y};
    }
  }

  lemma {:induction false} SumAdd<T(!new)>(weight: T -> nat, bag: multiset<T>, x: T)
    ensures Sum(weight, bag + multiset{x}) == weight(x) + Sum(weight, bag)
  {
    SumRemove(weight, bag + multiset{x}, x);
    assert bag + multiset{x} - multiset{x} == bag;
  }

  lemma {:induction false} SumUnion<T(!new)>(weight: T -> nat, a: multiset<T>, b: multiset<T>)
    ensures Sum(weight, a + b) == Sum(weight, a) + Sum(weight, b)
    decreases |b|
  {
    if b == multiset{} {
      assert a + b == a;
    } else {
      var x :| x in b;
      var rest := b - multiset{x};
      assert a + b == (a + rest) + multiset{x};
      SumAdd(weight, a + rest, x);
      SumUnion(weight, a, rest);
      SumRemove(weight, b, x);
    }
  }

  lemma {:induction false} SumZero<T(!new)>(weight: T -> nat, bag: multiset<T>)
    requires forall x :: x in bag ==> weight(x) == 0
    ensures Sum(weight, bag) == 0
    decreases |bag|
  {
    if bag != multiset{} {
      var x :| x in bag;
      SumRemove(weight, bag, x);
      SumZero(weight, bag - multiset{x});
    }
  }

  lemma {:induction false} SumPositive<T(!new)>(weight: T -> nat, bag: multiset<T>)
    requires Sum(weight, bag) > 0
    ensures exists x :: x in bag && weight(x) > 0
  {
    if forall x :: x in bag ==> weight(x) == 0 {
      SumZero(weight, bag);
    }
  }

  lemma {:induction false} SumAtLeast<T(!new)>(weight: T -> nat, bag: multiset<T>, x: T)
    requires x in bag
    ensures Sum(weight, bag) >= weight(x)
  {
    SumRemove(weight, bag, x);
  }

  /** Two weights that add up, element by element, to a third. */
  lemma {:induction false} SumSplit<T(!new)>(whole: T -> nat, left: T -> nat, right: T -> nat, bag: multiset<T>)
    requires forall x :: x in bag ==> whole(x) == left(x) + right(x)
    ensures Sum(whole, bag) == Sum(left, bag) + Sum(right, bag)
    decreases |bag|
  {
    if bag != multiset{} {
      var x :| x in bag;
      SumRemove(whole, bag, x);
      SumRemove(left, bag, x);
      SumRemove(right, bag, x);
      SumSplit(whole, left, right, bag - multiset{x});
    }
  }

  /** Elements of a set, all of the same weight. */
  lemma {:induction false} SumConstant<T(!new)>(weight: T -> nat, s: set<T>, w: nat)
    requires forall x :: x in s ==> weight(x) == w
    ensures Sum(weight, multiset(s)) == w * |s|
    decreases |s|
  {
    if s == {} {
      assert multiset(s) == multiset{};
    } else {
      var x :| x in s;
      assert multiset(s) - multiset{x} == multiset(s - {x});
      SumRemove(weight, multiset(s), x);
      SumConstant(weight, s - {x}, w);
      assert w * |s| == w + w * (|s| - 1);
    }
  }
}
