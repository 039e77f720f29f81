/** Sums of an integer-valued projection over a sequence: the shape of every
    `reduce((acc, x) => acc + f(x), 0)` on the cart page. */
module Sums {

  /** The sum of `f` over `s`, from the front. */
  function Sum<T>(s: seq<T>, f: T -> int): int
  {
    if |s| == 0 then 0 else f(s[0]) + Sum(s[1..], f)
  }

  /** Summing distributes over concatenation. */
  lemma {:induction false} SumAppend<T>(a: seq<T>, b: seq<T>, f: T -> int)
    ensures Sum(a + b, f) == Sum(a, f) + Sum(b, f)
  {
    if |a| == 0 {
      assert a + b == b;
    } else {
      assert (a + b)[1..] == a[1..] + b;
      SumAppend(a[1..], b, f);
    }
  }

  /** Adding one more element at the back adds its value: the step of a left fold. */
  lemma SumSnoc<T>(s: seq<T>, x: T, f: T -> int)
    ensures Sum(s + [x], f) == Sum(s, f) + f(x)
  {
    SumAppend(s, [x], f);
    assert Sum([x], f) == f(x) by {
      assert [x][1..] == [];
    }
  }
}
