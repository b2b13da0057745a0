/** Lists: filtering, flattening, relational sub-lists and permutations. */
module Sequences {

  function Filter<T>(p: T -> bool, s: seq<T>): seq<T> {
    if s == [] then [] else (if p(s[0]) then [s[0]] else []) + Filter(p, s[1..])
  }

  function FlatMap<A, B>(f: A -> seq<B>, s: seq<A>): seq<B> {
    if s == [] then [] else f(s[0]) + FlatMap(f, s[1..])
  }

  function Map<A, B>(f: A -> B, s: seq<A>): seq<B> {
    seq(|s|, i requires 0 <= i < |s| => f(s[i]))
  }

  lemma {:induction false} FilterAppend<T>(p: T -> bool, a: seq<T>, b: seq<T>)
    ensures Filter(p, a + b) == Filter(p, a) + Filter(p, b)
  {
    if a == [] {
      assert a + b == b;
    } else {
      FilterAppend(p, a[1..], b);
      var head := if p(a[0]) then [a[0]] else [];
      assert (a + b)[1..] == a[1..] + b && (a + b)[0] == a[0];
      Associative(head, Filter(p, a[1..]), Filter(p, b));
    }
  }

  lemma Associative<T>(a: seq<T>, b: seq<T>, c: seq<T>)
    ensures a + (b + c) == (a + b) + c
  {
  }

  lemma {:induction false} FlatMapAppend<A, B>(f: A -> seq<B>, a: seq<A>, b: seq<A>)
    ensures FlatMap(f, a + b) == FlatMap(f, a) + FlatMap(f, b)
  {
    if a == [] {
      assert a + b == b;
    } else {
      assert (a + b)[1..] == a[1..] + b && (a + b)[0] == a[0];
      Associative(f(a[0]), FlatMap(f, a[1..]), FlatMap(f, b));
      FlatMapAppend(f, a[1..], b);
    }
  }

  /** The step of a loop that has handled `s[..i]`. */
  lemma FilterStep<T>(p: T -> bool, s: seq<T>, i: nat)
    requires i < |s|
    ensures Filter(p, s[..i + 1]) == Filter(p, s[..i]) + (if p(s[i]) then [s[i]] else [])
  {
    assert s[..i + 1] == s[..i] + [s[i]];
    FilterAppend(p, s[..i], [s[i]]);
  }

  lemma FlatMapStep<A, B>(f: A -> seq<B>, s: seq<A>, i: nat)
    requires i < |s|
    ensures FlatMap(f, s[..i + 1]) == FlatMap(f, s[..i]) + f(s[i])
  {
    assert s[..i + 1] == s[..i] + [s[i]];
    FlatMapAppend(f, s[..i], [s[i]]);
    assert FlatMap(f, [s[i]]) == f(s[i]) + [];
  }

  lemma FilterMember<T>(p: T -> bool, s: seq<T>, x: T)
    ensures x in Filter(p, s) <==> x in s && p(x)
  {
    if s != [] {
      FilterMember(p, s[1..], x);
      assert x in s <==> x == s[0] || x in s[1..];
    }
  }

  lemma FlatMapMember<A, B>(f: A -> seq<B>, s: seq<A>, y: B)
    ensures y in FlatMap(f, s) <==> exists x :: x in s && y in f(x)
  {
    if s != [] {
      FlatMapMember(f, s[1..], y);
      assert forall x :: x in s <==> x == s[0] || x in s[1..];
      assert y in FlatMap(f, s) <==> y in f(s[0]) || y in FlatMap(f, s[1..]);
    }
  }

  lemma {:induction false} FilterCommutes<T>(p: T -> bool, q: T -> bool, s: seq<T>)
    ensures Filter(p, Filter(q, s)) == Filter(q, Filter(p, s))
  {
    if s != [] {
      FilterCommutes(p, q, s[1..]);
      var x := s[0];
      FilterAppend(p, if q(x) then [x] else [], Filter(q, s[1..]));
      FilterAppend(q, if p(x) then [x] else [], Filter(p, s[1..]));
      assert Filter(p, [x]) == (if p(x) then [x] else []) + Filter(p, []);
      assert Filter(q, [x]) == (if q(x) then [x] else []) + Filter(q, []);
    }
  }

  lemma FilterSplitsLength<T>(p: T -> bool, q: T -> bool, s: seq<T>)
    requires forall x :: x in s ==> (q(x) <==> !p(x))
    ensures |Filter(p, s)| + |Filter(q, s)| == |s|
  {
    if s != [] {
      FilterSplitsLength(p, q, s[1..]);
    }
  }

  // ----- Sub-lists modulo a relation -------------------------------------------

  /** `a` is what is left of `b` after deleting elements, up to `rel` on the kept ones. */
  ghost predicate SublistBy<T>(rel: (T, T) -> bool, a: seq<T>, b: seq<T>) {
    a == [] ||
    (b != [] && ((rel(a[0], b[0]) && SublistBy(rel, a[1..], b[1..])) || SublistBy(rel, a, b[1..])))
  }

  ghost predicate Same<T>(x: T, y: T) {
    x == y
  }

  ghost predicate Reflexive<T(!new)>(rel: (T, T) -> bool) {
    forall x :: rel(x, x)
  }

  lemma {:induction false} SublistLength<T>(rel: (T, T) -> bool, a: seq<T>, b: seq<T>)
    requires SublistBy(rel, a, b)
    ensures |a| <= |b|
    ensures |a| == |b| ==> forall i :: 0 <= i < |a| ==> rel(a[i], b[i])
  {
    if a != [] {
      if rel(a[0], b[0]) && SublistBy(rel, a[1..], b[1..]) {
        SublistLength(rel, a[1..], b[1..]);
        if |a| == |b| {
          forall i | 0 <= i < |a| ensures rel(a[i], b[i]) {
            if i > 0 {
              assert a[i] == a[1..][i - 1] && b[i] == b[1..][i - 1];
            }
          }
        }
      } else {
        SublistLength(rel, a, b[1..]);
      }
    }
  }

  lemma {:induction false} SublistSkip<T>(rel: (T, T) -> bool, a: seq<T>, extra: seq<T>, b: seq<T>)
    requires SublistBy(rel, a, b)
    ensures SublistBy(rel, a, extra + b)
  {
    if extra == [] {
      assert extra + b == b;
    } else {
      SublistSkip(rel, a, extra[1..], b);
      assert (extra + b)[1..] == extra[1..] + b;
    }
  }

  lemma {:induction false} SublistAppend<T>(rel: (T, T) -> bool, a: seq<T>, b: seq<T>, c: seq<T>, d: seq<T>)
    requires SublistBy(rel, a, b) && SublistBy(rel, c, d)
    ensures SublistBy(rel, a + c, b + d)
  {
    if a == [] {
      assert a + c == c;
      SublistSkip(rel, c, b, d);
    } else {
      assert (b + d)[1..] == b[1..] + d;
      if rel(a[0], b[0]) && SublistBy(rel, a[1..], b[1..]) {
        SublistAppend(rel, a[1..], b[1..], c, d);
        assert (a + c)[1..] == a[1..] + c;
      } else {
        SublistAppend(rel, a, b[1..], c, d);
      }
    }
  }

  lemma {:induction false} SublistRefl<T(!new)>(rel: (T, T) -> bool, a: seq<T>)
    requires Reflexive(rel)
    ensures SublistBy(rel, a, a)
  {
    if a != [] {
      SublistRefl(rel, a[1..]);
    }
  }

  lemma {:induction false} SublistMember<T>(a: seq<T>, b: seq<T>, x: T)
    requires SublistBy(Same, a, b) && x in a
    ensures x in b
  {
    if Same(a[0], b[0]) && SublistBy(Same, a[1..], b[1..]) {
      if x != a[0] {
        SublistMember(a[1..], b[1..], x);
      }
    } else {
      SublistMember(a, b[1..], x);
    }
  }

  /** Filtering by a stronger predicate, on related lists, keeps a sub-list. */
  lemma {:induction false} SublistFilter<T>(rel: (T, T) -> bool, p: T -> bool, q: T -> bool, a: seq<T>, b: seq<T>)
    requires SublistBy(rel, a, b)
    requires forall x, y :: x in a && y in b && rel(x, y) && p(x) ==> q(y)
    ensures SublistBy(rel, Filter(p, a), Filter(q, b))
  {
    if a != [] {
      if rel(a[0], b[0]) && SublistBy(rel, a[1..], b[1..]) {
        SublistFilter(rel, p, q, a[1..], b[1..]);
        if p(a[0]) {
          SublistAppend(rel, [a[0]], [b[0]], Filter(p, a[1..]), Filter(q, b[1..]));
        } else {
          SublistSkip(rel, Filter(p, a[1..]), if q(b[0]) then [b[0]] else [], Filter(q, b[1..]));
          assert Filter(p, a) == Filter(p, a[1..]);
        }
      } else {
        SublistFilter(rel, p, q, a, b[1..]);
        SublistSkip(rel, Filter(p, a), if q(b[0]) then [b[0]] else [], Filter(q, b[1..]));
      }
    }
  }

  lemma {:induction false} SublistFlatMap<A, B>(rel: (B, B) -> bool, f: A -> seq<B>, g: A -> seq<B>,
                                                a: seq<A>, b: seq<A>)
    requires SublistBy(Same, a, b)
    requires forall x :: x in a ==> SublistBy(rel, f(x), g(x))
    ensures SublistBy(rel, FlatMap(f, a), FlatMap(g, b))
  {
    if a != [] {
      if Same(a[0], b[0]) && SublistBy(Same, a[1..], b[1..]) {
        SublistFlatMap(rel, f, g, a[1..], b[1..]);
        SublistAppend(rel, f(a[0]), g(b[0]), FlatMap(f, a[1..]), FlatMap(g, b[1..]));
      } else {
        SublistFlatMap(rel, f, g, a, b[1..]);
        SublistSkip(rel, FlatMap(f, a), g(b[0]), FlatMap(g, b[1..]));
      }
    }
  }

  // ----- Permutations ----------------------------------------------------------

  ghost predicate Permutes<T>(a: seq<T>, b: seq<T>) {
    multiset(a) == multiset(b)
  }

  lemma PermutesMembers<T>(a: seq<T>, b: seq<T>)
    requires Permutes(a, b)
    ensures |a| == |b|
    ensures forall x :: x in a <==> x in b
  {
    assert forall x :: x in a <==> x in multiset(a);
    assert forall x :: x in b <==> x in multiset(b);
    assert |multiset(a)| == |a| && |multiset(b)| == |b|;
  }

  /** Taking the head of one list out of a permutation of it. */
  lemma RemoveHead<T>(a: seq<T>, b: seq<T>) returns (i: nat)
    requires Permutes(a, b) && a != []
    ensures i < |b| && b[i] == a[0]
    ensures b == b[..i] + [b[i]] + b[i + 1..]
    ensures Permutes(a[1..], b[..i] + b[i + 1..])
  {
    PermutesMembers(a, b);
    assert a[0] in b;
    i :| i < |b| && b[i] == a[0];
    WithoutOne(a, 0);
    WithoutOne(b, i);
    assert a[..0] + a[1..] == a[1..];
  }

  lemma WithoutOne<T>(s: seq<T>, i: nat)
    requires i < |s|
    ensures s == s[..i] + [s[i]] + s[i + 1..]
    ensures multiset(s[..i] + s[i + 1..]) == multiset(s) - multiset{s[i]}
  {
    assert s == s[..i] + [s[i]] + s[i + 1..];
    assert multiset(s) == multiset(s[..i]) + multiset{s[i]} + multiset(s[i + 1..]);
  }

  lemma {:induction false} PermutesFlatMap<A, B>(f: A -> seq<B>, g: A -> seq<B>, a: seq<A>, b: seq<A>)
    requires Permutes(a, b)
    requires forall x :: x in a ==> Permutes(f(x), g(x))
    ensures Permutes(FlatMap(f, a), FlatMap(g, b))
  {
    PermutesMembers(a, b);
    if a != [] {
      var i := RemoveHead(a, b);
      PermutesFlatMap(f, g, a[1..], b[..i] + b[i + 1..]);
      FlatMapAppend(g, b[..i], b[i + 1..]);
      FlatMapAppend(g, b[..i] + [b[i]], b[i + 1..]);
      FlatMapStep(g, b, i);
      assert b[..i + 1] == b[..i] + [b[i]];
    }
  }

  lemma {:induction false} PermutesFilter<T>(p: T -> bool, a: seq<T>, b: seq<T>)
    requires Permutes(a, b)
    ensures Permutes(Filter(p, a), Filter(p, b))
  {
    PermutesMembers(a, b);
    if a != [] {
      var i := RemoveHead(a, b);
      PermutesFilter(p, a[1..], b[..i] + b[i + 1..]);
      FilterAppend(p, b[..i], b[i + 1..]);
      FilterAppend(p, b[..i] + [b[i]], b[i + 1..]);
      FilterStep(p, b, i);
      assert b[..i + 1] == b[..i] + [b[i]];
    }
  }

  function Repeat<T>(s: seq<T>, n: nat): seq<T> {
    if n == 0 then [] else s + Repeat(s, n - 1)
  }

  function Contributes<A, B>(f: A -> seq<B>, p: B -> bool): A -> bool {
    (x: A) => Filter(p, f(x)) != []
  }

  lemma {:induction false} FlatMapRepeats<A, B>(f: A -> seq<B>, p: B -> bool, s: seq<A>, part: seq<B>)
    requires forall x :: x in s && Contributes(f, p)(x) ==> Filter(p, f(x)) == part
    ensures Filter(p, FlatMap(f, s)) == Repeat(part, |Filter(Contributes(f, p), s)|)
  {
    if s != [] {
      FlatMapRepeats(f, p, s[1..], part);
      FilterAppend(p, f(s[0]), FlatMap(f, s[1..]));
    }
  }

  /** When all contributing elements contribute the same list, their order does not show. */
  lemma FlatMapUniform<A, B>(f: A -> seq<B>, p: B -> bool, a: seq<A>, b: seq<A>)
    requires Permutes(a, b)
    requires forall x, y :: x in a && y in a && Contributes(f, p)(x) && Contributes(f, p)(y) ==>
              Filter(p, f(x)) == Filter(p, f(y))
    ensures Filter(p, FlatMap(f, a)) == Filter(p, FlatMap(f, b))
  {
    PermutesMembers(a, b);
    PermutesFilter(Contributes(f, p), a, b);
    PermutesMembers(Filter(Contributes(f, p), a), Filter(Contributes(f, p), b));
    var part := if exists x :: x in a && Contributes(f, p)(x)
                then var x :| x in a && Contributes(f, p)(x); Filter(p, f(x)) else [];
    FlatMapRepeats(f, p, a, part);
    FlatMapRepeats(f, p, b, part);
  }
}
