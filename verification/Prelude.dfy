/** Small shared vocabulary: optional values, results, lexicographic order and sums over finite sets. */
module Prelude {

  datatype Option<+T> = None | Some(value: T)

  datatype Result<+T, +E> = Ok(value: T) | Err(error: E)

  /** Strict lexicographic order on integer sequences; a proper prefix comes first. */
  predicate LexLess(a: seq<int>, b: seq<int>) {
    b != [] && (a == [] || a[0] < b[0] || (a[0] == b[0] && LexLess(a[1..], b[1..])))
  }

  lemma {:induction false} LexTotal(a: seq<int>, b: seq<int>)
    ensures !LexLess(a, a)
    ensures a == b || LexLess(a, b) || LexLess(b, a)
    ensures !(LexLess(a, b) && LexLess(b, a))
  {
    if a == [] {
    } else if b == [] {
      LexTotal(a[1..], a[1..]);
    } else {
      LexTotal(a[1..], a[1..]);
      LexTotal(a[1..], b[1..]);
      assert a == [a[0]] + a[1..] && b == [b[0]] + b[1..];
    }
  }

  lemma {:induction false} LexTransitive(a: seq<int>, b: seq<int>, c: seq<int>)
    requires LexLess(a, b) && LexLess(b, c)
    ensures LexLess(a, c)
  {
    if a != [] && a[0] == b[0] == c[0] {
      LexTransitive(a[1..], b[1..], c[1..]);
    }
  }

  /** The sum of `f` over a finite set. */
  ghost function SumSet<T(!new)>(s: set<T>, f: T -> int): int {
    if s == {} then 0
    else
      var x :| x in s;
      f(x) + SumSet(s - {x}, f)
  }

  lemma {:induction false} SumSetRemove<T(!new)>(s: set<T>, f: T -> int, x: T)
    requires x in s
    ensures SumSet(s, f) == f(x) + SumSet(s - {x}, f)
    decreases |s|
  {
    var y :| y in s && SumSet(s, f) == f(y) + SumSet(s - {y}, f);
    if y != x {
      SumSetRemove(s - {y}, f, x);
      SumSetRemove(s - {x}, f, y);
      assert s - {y} - {x} == s - {x} - {y};
    }
  }

  lemma {:induction false} SumSetSame<T(!new)>(s: set<T>, f: T -> int, g: T -> int)
    requires forall x :: x in s ==> f(x) == g(x)
    ensures SumSet(s, f) == SumSet(s, g)
  {
    if s != {} {
      var x :| x in s;
      SumSetSame(s - {x}, f, g);
      SumSetRemove(s, f, x);
      SumSetRemove(s, g, x);
    }
  }

  /** Changing `f` at one element changes the sum by the difference. */
  lemma SumSetUpdate<T(!new)>(s: set<T>, f: T -> int, g: T -> int, x: T)
    requires x in s && forall y :: y in s && y != x ==> f(y) == g(y)
    ensures SumSet(s, g) == SumSet(s, f) + g(x) - f(x)
  {
    SumSetRemove(s, f, x);
    SumSetRemove(s, g, x);
    SumSetSame(s - {x}, f, g);
  }
}
