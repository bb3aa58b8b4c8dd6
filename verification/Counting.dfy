/** Counting the items of a sequence that satisfy a predicate. */
module Counting {
  import opened Basics

  function Count<T>(items: seq<T>, p: T -> bool): nat {
    if items == [] then 0 else One(p(items[0])) + Count(items[1..], p)
  }

  lemma {:induction false} CountAppend<T>(a: seq<T>, b: seq<T>, p: T -> bool)
    ensures Count(a + b, p) == Count(a, p) + Count(b, p)
  {
    if a == [] {
      assert a + b == b;
    } else {
      assert (a + b)[1..] == a[1..] + b;
      CountAppend(a[1..], b, p);
    }
  }

  lemma CountShort<T>(items: seq<T>, p: T -> bool)
    requires |items| <= 3
    ensures Count(items, p) == (if |items| > 0 then One(p(items[0])) else 0)
      + (if |items| > 1 then One(p(items[1])) else 0) + (if |items| > 2 then One(p(items[2])) else 0)
  {
    if |items| > 0 {
      assert Count(items, p) == One(p(items[0])) + Count(items[1..], p);
      if |items| > 1 {
        assert Count(items[1..], p) == One(p(items[1])) + Count(items[1..][1..], p);
        if |items| > 2 {
          assert Count(items[1..][1..], p) == One(p(items[2])) + Count(items[1..][1..][1..], p);
        }
      }
    }
  }
}
