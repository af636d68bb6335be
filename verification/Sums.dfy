/** Sums and cardinalities over finite sets, used for aggregates and for potential arguments. */
module Sums {

  ghost function Sum<T>(s: set<T>, f: T -> int): int {
    if s == {} then 0
    else
      var x :| x in s;
      f(x) + Sum(s - {x}, f)
  }

  /** The order in which elements are picked does not matter. */
  lemma {:induction false} SumRemove<T>(s: set<T>, f: T -> int, x: T)
    requires x in s
    ensures Sum(s, f) == f(x) + Sum(s - {x}, f)
    decreases |s|
  {
    var y :| y in s && Sum(s, f) == f(y) + Sum(s - {y}, f);
    if y != x {
      SumRemove(s - {y}, f, x);
      SumRemove(s - {x}, f, y);
      assert s - {y} - {x} == s - {x} - {y};
    }
  }

  lemma {:induction false} SumUnion<T>(a: set<T>, b: set<T>, f: T -> int)
    requires a !! b
    ensures Sum(a + b, f) == Sum(a, f) + Sum(b, f)
    decreases |a|
  {
    if a == {} {
      assert a + b == b;
    } else {
      var x :| x in a;
      SumRemove(a, f, x);
      SumRemove(a + b, f, x);
      assert (a + b) - {x} == (a - {x}) + b;
      SumUnion(a - {x}, b, f);
    }
  }

  lemma {:induction false} SumMonotone<T>(s: set<T>, f: T -> int, g: T -> int)
    requires forall x <- s :: f(x) <= g(x)
    ensures Sum(s, f) <= Sum(s, g)
    decreases |s|
  {
    if s != {} {
      var x :| x in s;
      SumRemove(s, f, x);
      SumRemove(s, g, x);
      SumMonotone(s - {x}, f, g);
    }
  }

  /** A drop of at least one per element is a drop of at least the cardinality. */
  lemma {:induction false} SumDrop<T>(s: set<T>, f: T -> int, g: T -> int)
    requires forall x <- s :: f(x) + 1 <= g(x)
    ensures Sum(s, f) + |s| <= Sum(s, g)
    decreases |s|
  {
    if s != {} {
      var x :| x in s;
      SumRemove(s, f, x);
      SumRemove(s, g, x);
      SumDrop(s - {x}, f, g);
    }
  }

  lemma SumEqual<T>(s: set<T>, f: T -> int, g: T -> int)
    requires forall x <- s :: f(x) == g(x)
    ensures Sum(s, f) == Sum(s, g)
  {
    SumMonotone(s, f, g);
    SumMonotone(s, g, f);
  }

  lemma {:induction false} SumConstant<T>(s: set<T>, f: T -> int, c: int)
    requires forall x <- s :: f(x) == c
    ensures Sum(s, f) == c * |s|
    decreases |s|
  {
    if s != {} {
      var x :| x in s;
      SumRemove(s, f, x);
      SumConstant(s - {x}, f, c);
      assert c * |s| == c * |s - {x}| + c;
    }
  }

  /** Summing over an injective image is summing over the source. */
  lemma {:induction false} SumImage<A, B>(s: set<A>, g: A -> B, f: B -> int, image: set<B>)
    requires forall x, y :: x in s && y in s && g(x) == g(y) ==> x == y
    requires image == set x | x in s :: g(x)
    ensures Sum(image, f) == Sum(s, x => f(g(x)))
    ensures |image| == |s|
    decreases |s|
  {
    if s == {} {
      assert image == {};
    } else {
      var x :| x in s;
      var h := x => f(g(x));
      SumRemove(s, h, x);
      assert g(x) in image;
      SumRemove(image, f, g(x));
      var rest := image - {g(x)};
      assert rest == set y | y in s - {x} :: g(y);
      SumImage(s - {x}, g, f, rest);
      assert Sum(s - {x}, h) == Sum(s - {x}, x => f(g(x)));
    }
  }

  lemma SubsetCard<T>(a: set<T>, b: set<T>)
    requires a <= b
    ensures |a| <= |b|
  {
    assert b == a + (b - a);
  }
}
