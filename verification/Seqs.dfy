/** Sequence combinators the relational evaluator is built from, and the laws it needs. */
module Seqs {

  datatype Option<+T> = None | Some(value: T)

  function Map<A(!new), B(!new)>(s: seq<A>, f: A -> B): (r: seq<B>)
    ensures |r| == |s|
    ensures forall i :: 0 <= i < |s| ==> r[i] == f(s[i])
  {
    seq(|s|, i requires 0 <= i < |s| => f(s[i]))
  }

  function Filter<A>(s: seq<A>, keep: A -> bool): seq<A> {
    if s == [] then []
    else if keep(s[0]) then [s[0]] + Filter(s[1..], keep)
    else Filter(s[1..], keep)
  }

  function FlatMap<A, B>(s: seq<A>, f: A -> seq<B>): seq<B> {
    if s == [] then [] else f(s[0]) + FlatMap(s[1..], f)
  }

  /** The sum of `g` over the elements: a linear functional, so counting and SUM are instances. */
  function Total<A>(s: seq<A>, g: A -> int): int {
    if s == [] then 0 else g(s[0]) + Total(s[1..], g)
  }

  lemma {:induction false} FilterIn<A(!new)>(s: seq<A>, keep: A -> bool)
    ensures forall x :: x in Filter(s, keep) <==> x in s && keep(x)
  {
    if s != [] { FilterIn(s[1..], keep); }
  }

  lemma {:induction false} FilterLength<A>(s: seq<A>, keep: A -> bool)
    ensures |Filter(s, keep)| <= |s|
  {
    if s != [] { FilterLength(s[1..], keep); }
  }

  lemma {:induction false} FlatMapIn<A(!new), B(!new)>(s: seq<A>, f: A -> seq<B>, y: B)
    ensures y in FlatMap(s, f) <==> exists x :: x in s && y in f(x)
  {
    if s != [] {
      FlatMapIn(s[1..], f, y);
      assert forall x :: x in s <==> x == s[0] || x in s[1..];
    }
  }

  // Function values are named, so that two mentions of one denote the same function.

  function Both<A>(p: A -> bool, q: A -> bool): A -> bool { (x: A) => p(x) && q(x) }

  function Compose<A, B, C>(f: A -> B, g: B -> C): A -> C { (x: A) => g(f(x)) }

  function Thinned<A, B(!new)>(f: A -> seq<B>, p: B -> bool): A -> seq<B> { (x: A) => Filter(f(x), p) }

  function Guarded<A, B>(f: A -> seq<B>, p: A -> bool): A -> seq<B> { (x: A) => if p(x) then f(x) else [] }

  function Where<A>(p: A -> bool, g: A -> int): A -> int { (x: A) => if p(x) then g(x) else 0 }

  function TotalOf<A, B>(f: A -> seq<B>, g: B -> int): A -> int { (x: A) => Total(f(x), g) }

  lemma {:induction false} MapCong<A(!new), B(!new)>(s: seq<A>, f: A -> B, g: A -> B)
    requires forall x :: x in s ==> f(x) == g(x)
    ensures Map(s, f) == Map(s, g)
  {
    forall i | 0 <= i < |s| ensures f(s[i]) == g(s[i]) {
      assert s[i] in s;
    }
  }

  lemma {:induction false} FilterCong<A(!new)>(s: seq<A>, p: A -> bool, q: A -> bool)
    requires forall x :: x in s ==> p(x) == q(x)
    ensures Filter(s, p) == Filter(s, q)
  {
    if s != [] {
      assert s[0] in s;
      FilterCong(s[1..], p, q);
    }
  }

  lemma {:induction false} FlatMapCong<A(!new), B(!new)>(s: seq<A>, f: A -> seq<B>, g: A -> seq<B>)
    requires forall x :: x in s ==> f(x) == g(x)
    ensures FlatMap(s, f) == FlatMap(s, g)
  {
    if s != [] {
      assert s[0] in s;
      FlatMapCong(s[1..], f, g);
    }
  }

  lemma {:induction false} FilterConcat<A(!new)>(s: seq<A>, t: seq<A>, p: A -> bool)
    ensures Filter(s + t, p) == Filter(s, p) + Filter(t, p)
  {
    if s == [] {
      assert s + t == t;
    } else {
      assert (s + t)[1..] == s[1..] + t;
      FilterConcat(s[1..], t, p);
    }
  }

  lemma {:induction false} FilterAll<A(!new)>(s: seq<A>, p: A -> bool)
    requires forall x :: x in s ==> p(x)
    ensures Filter(s, p) == s
  {
    if s != [] {
      assert s[0] in s;
      FilterAll(s[1..], p);
    }
  }

  lemma {:induction false} FilterNone<A(!new)>(s: seq<A>, p: A -> bool)
    requires forall x :: x in s ==> !p(x)
    ensures Filter(s, p) == []
  {
    if s != [] {
      assert s[0] in s;
      FilterNone(s[1..], p);
    }
  }

  lemma {:induction false} FilterTwice<A(!new)>(s: seq<A>, p: A -> bool, q: A -> bool)
    ensures Filter(Filter(s, p), q) == Filter(s, Both(p, q))
  {
    if s != [] {
      FilterTwice(s[1..], p, q);
    }
  }

  lemma {:induction false} FilterMap<A(!new), B(!new)>(s: seq<A>, f: A -> B, p: B -> bool)
    ensures Filter(Map(s, f), p) == Map(Filter(s, Compose(f, p)), f)
  {
    if s == [] {
    } else {
      assert Map(s, f) == [f(s[0])] + Map(s[1..], f);
      FilterMap(s[1..], f, p);
    }
  }

  lemma {:induction false} FilterFlatMap<A(!new), B(!new)>(s: seq<A>, f: A -> seq<B>, p: B -> bool)
    ensures Filter(FlatMap(s, f), p) == FlatMap(s, Thinned(f, p))
  {
    if s != [] {
      FilterConcat(f(s[0]), FlatMap(s[1..], f), p);
      FilterFlatMap(s[1..], f, p);
    }
  }

  /** Elements an expansion maps to nothing may be dropped before it. */
  lemma {:induction false} FlatMapFilter<A(!new), B(!new)>(s: seq<A>, f: A -> seq<B>, p: A -> bool)
    requires forall x :: x in s && !p(x) ==> f(x) == []
    ensures FlatMap(s, f) == FlatMap(Filter(s, p), f)
  {
    if s != [] {
      assert s[0] in s;
      FlatMapFilter(s[1..], f, p);
    }
  }

  /** Filtering an expansion by a test that only looks at what was expanded. */
  lemma {:induction false} FilterExpansion<A(!new), B(!new)>(s: seq<A>, f: A -> seq<B>, p: A -> bool, q: B -> bool)
    requires forall x, y :: x in s && y in f(x) ==> q(y) == p(x)
    ensures Filter(FlatMap(s, f), q) == FlatMap(Filter(s, p), f)
  {
    var kept := Guarded(f, p);
    forall x | x in s ensures Filter(f(x), q) == kept(x) {
      if p(x) { FilterAll(f(x), q); } else { FilterNone(f(x), q); }
    }
    FilterFlatMap(s, f, q);
    FlatMapCong(s, Thinned(f, q), kept);
    FlatMapFilter(s, kept, p);
    FilterIn(s, p);
    FlatMapCong(Filter(s, p), kept, f);
  }

  ghost predicate Pairwise<A>(s: seq<A>, r: (A, A) -> bool) {
    forall i, j :: 0 <= i < j < |s| ==> r(s[i], s[j])
  }

  lemma {:induction false} FilterPairwise<A(!new)>(s: seq<A>, p: A -> bool, r: (A, A) -> bool)
    requires Pairwise(s, r)
    ensures Pairwise(Filter(s, p), r)
  {
    if s != [] {
      FilterPairwise(s[1..], p, r);
      if p(s[0]) {
        FilterIn(s[1..], p);
        forall j | 0 <= j < |Filter(s[1..], p)| ensures r(s[0], Filter(s[1..], p)[j]) {
          assert Filter(s[1..], p)[j] in s[1..];
        }
      }
    }
  }

  lemma {:induction false} MapPairwise<A(!new), B(!new)>(s: seq<A>, f: A -> B, r: (A, A) -> bool, r': (B, B) -> bool)
    requires Pairwise(s, r)
    requires forall x, y :: r(x, y) ==> r'(f(x), f(y))
    ensures Pairwise(Map(s, f), r')
  {
  }

  // Laws of Total.

  lemma {:induction false} TotalConcat<A(!new)>(s: seq<A>, t: seq<A>, g: A -> int)
    ensures Total(s + t, g) == Total(s, g) + Total(t, g)
  {
    if s == [] {
      assert s + t == t;
    } else {
      assert (s + t)[1..] == s[1..] + t;
      TotalConcat(s[1..], t, g);
    }
  }

  lemma {:induction false} TotalCong<A(!new)>(s: seq<A>, g: A -> int, h: A -> int)
    requires forall x :: x in s ==> g(x) == h(x)
    ensures Total(s, g) == Total(s, h)
  {
    if s != [] {
      assert s[0] in s;
      TotalCong(s[1..], g, h);
    }
  }

  lemma {:induction false} TotalMap<A(!new), B(!new)>(s: seq<A>, f: A -> B, g: B -> int)
    ensures Total(Map(s, f), g) == Total(s, Compose(f, g))
  {
    if s != [] {
      assert Map(s, f) == [f(s[0])] + Map(s[1..], f);
      TotalMap(s[1..], f, g);
    }
  }

  lemma {:induction false} TotalFilter<A(!new)>(s: seq<A>, p: A -> bool, g: A -> int)
    ensures Total(Filter(s, p), g) == Total(s, Where(p, g))
  {
    if s != [] {
      TotalFilter(s[1..], p, g);
    }
  }

  lemma {:induction false} TotalFlatMap<A(!new), B(!new)>(s: seq<A>, f: A -> seq<B>, g: B -> int)
    ensures Total(FlatMap(s, f), g) == Total(s, TotalOf(f, g))
  {
    if s != [] {
      TotalConcat(f(s[0]), FlatMap(s[1..], f), g);
      TotalFlatMap(s[1..], f, g);
    }
  }

  function Fix1<A, B>(g: (A, B) -> int, x: A): B -> int { (y: B) => g(x, y) }

  function Fix2<A, B>(g: (A, B) -> int, y: B): A -> int { (x: A) => g(x, y) }

  function Rowwise<A, B>(t: seq<B>, g: (A, B) -> int): A -> int { (x: A) => Total(t, Fix1(g, x)) }

  function Columnwise<A, B>(s: seq<A>, g: (A, B) -> int): B -> int { (y: B) => Total(s, Fix2(g, y)) }

  lemma {:induction false} TotalPlus<A(!new)>(s: seq<A>, g: A -> int, h: A -> int, sum: A -> int)
    requires forall x :: x in s ==> sum(x) == g(x) + h(x)
    ensures Total(s, sum) == Total(s, g) + Total(s, h)
  {
    if s != [] {
      assert s[0] in s;
      TotalPlus(s[1..], g, h, sum);
    }
  }

  /** The order of two summations does not matter. */
  lemma {:induction false} TotalSwap<A(!new), B(!new)>(s: seq<A>, t: seq<B>, g: (A, B) -> int)
    ensures Total(s, Rowwise(t, g)) == Total(t, Columnwise(s, g))
  {
    if s == [] {
      TotalZero(t, Columnwise(s, g));
    } else {
      TotalSwap(s[1..], t, g);
      TotalPlus(t, Fix1(g, s[0]), Columnwise(s[1..], g), Columnwise(s, g));
    }
  }

  lemma {:induction false} TotalZero<A(!new)>(s: seq<A>, g: A -> int)
    requires forall x :: x in s ==> g(x) == 0
    ensures Total(s, g) == 0
  {
    if s != [] {
      assert s[0] in s;
      TotalZero(s[1..], g);
    }
  }

  /** A non-negative total is zero exactly when every part is. */
  lemma {:induction false} TotalEven<A(!new)>(s: seq<A>, g: A -> int, v: int)
    requires forall x :: x in s ==> g(x) == v
    ensures Total(s, g) == |s| * v
  {
    if s != [] {
      assert s[0] in s;
      TotalEven(s[1..], g, v);
    }
  }

  lemma {:induction false} TotalPositive<A(!new)>(s: seq<A>, g: A -> int)
    requires forall x :: x in s ==> g(x) >= 0
    ensures Total(s, g) >= 0
    ensures Total(s, g) == 0 <==> forall x :: x in s ==> g(x) == 0
  {
    if s != [] {
      assert s[0] in s;
      TotalPositive(s[1..], g);
      assert forall x :: x in s ==> x == s[0] || x in s[1..];
    }
  }
}
