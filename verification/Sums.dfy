/** Adding up a measure over a multiset. */
module Sums {
  ghost function Sum<T(!new)>(bag: multiset<T>, f: T -> nat): (total: nat)
    decreases |bag|
  {
    if bag == multiset{} then 0
    else
      var x :| x in bag;
      f(x) + Sum(bag - multiset{x}, f)
  }

  /** Any element may be taken out first. */
  lemma {:induction false} SumOne<T(!new)>(bag: multiset<T>, f: T -> nat, x: T)
    requires x in bag
    ensures Sum(bag, f) == f(x) + Sum(bag - multiset{x}, f)
    decreases |bag|
  {
    var y :| y in bag && Sum(bag, f) == f(y) + Sum(bag - multiset{y}, f);
    if x != y {
      SumOne(bag - multiset{y}, f, x);
      SumOne(bag - multiset{x}, f, y);
      assert bag - multiset{y} - multiset{x} == bag - multiset{x} - multiset{y};
    }
  }

  lemma {:induction false} SumPlus<T(!new)>(a: multiset<T>, b: multiset<T>, f: T -> nat)
    ensures Sum(a + b, f) == Sum(a, f) + Sum(b, f)
    decreases |b|
  {
    if b == multiset{} {
      assert a + b == a;
    } else {
      var x :| x in b;
      SumPlus(a, b - multiset{x}, f);
      SumOne(a + b, f, x);
      SumOne(b, f, x);
      assert a + b - multiset{x} == a + (b - multiset{x});
    }
  }

  /** Exchanging one element for others. */
  lemma SumExchange<T(!new)>(bag: multiset<T>, x: T, out: multiset<T>, f: T -> nat)
    requires x in bag
    ensures Sum(bag - multiset{x} + out, f) + f(x) == Sum(bag, f) + Sum(out, f)
  {
    SumOne(bag, f, x);
    SumPlus(bag - multiset{x}, out, f);
  }

  lemma WithoutOne<T>(s: set<T>, x: T)
    requires x in s
    ensures multiset(s - {x}) == multiset(s) - multiset{x}
  {
  }

  lemma ImageWithoutOne<S(!new), T>(s: set<S>, g: S -> T, x: S)
    requires x in s && forall y :: y in s && g(y) == g(x) ==> y == x
    ensures (set y | y in s - {x} :: g(y)) == (set y | y in s :: g(y)) - {g(x)}
  {
  }

  /** Adding up over the image of a set under an injection. */
  lemma {:induction false} SumImage<S(!new), T(!new)>(s: set<S>, g: S -> T, image: set<T>, f: T -> nat, h: S -> nat)
    requires image == set x | x in s :: g(x)
    requires forall x, y :: x in s && y in s && g(x) == g(y) ==> x == y
    requires forall x :: x in s ==> f(g(x)) == h(x)
    ensures Sum(multiset(image), f) == Sum(multiset(s), h)
    decreases |s|
  {
    if x :| x in s {
      var y := g(x);
      assert y in image;
      ImageWithoutOne(s, g, x);
      SumImage(s - {x}, g, image - {y}, f, h);
      hide Sum;
      WithoutOne(image, y);
      WithoutOne(s, x);
      SumOne(multiset(image), f, y);
      SumOne(multiset(s), h, x);
    }
  }

  lemma {:induction false} SumAtLeastSize<T(!new)>(bag: multiset<T>, f: T -> nat)
    requires forall x :: x in bag ==> f(x) >= 1
    ensures Sum(bag, f) >= |bag|
    decreases |bag|
  {
    if x :| x in bag {
      SumOne(bag, f, x);
      SumAtLeastSize(bag - multiset{x}, f);
    }
  }

  /** A part sums up to no more. */
  lemma SumWithin<T(!new)>(part: multiset<T>, whole: multiset<T>, f: T -> nat)
    requires part <= whole
    ensures Sum(part, f) <= Sum(whole, f)
  {
    SumPlus(part, whole - part, f);
    assert part + (whole - part) == whole;
  }

  lemma {:induction false} SumAtMost<T(!new)>(bag: multiset<T>, f: T -> nat, most: nat)
    requires forall x :: x in bag ==> f(x) <= most
    ensures Sum(bag, f) <= |bag| * most
    decreases |bag|
  {
    if x :| x in bag {
      SumOne(bag, f, x);
      SumAtMost(bag - multiset{x}, f, most);
      assert (|bag| - 1) * most + most == |bag| * most;
    }
  }
}
