/** Python's string and tuple order, and its stable sort. */
module Ordering {
  import opened Sequences

  // ----- Lexicographic orders ------------------------------------------------------

  /** Code-point order on strings. */
  predicate StringLeq(a: string, b: string) {
    a == [] || (b != [] && (a[0] < b[0] || (a[0] == b[0] && StringLeq(a[1..], b[1..]))))
  }

  /** Tuples of strings, compared component by component. */
  predicate TupleLeq(a: seq<string>, b: seq<string>) {
    a == [] ||
    (b != [] && (if a[0] == b[0] then TupleLeq(a[1..], b[1..]) else StringLeq(a[0], b[0])))
  }

  lemma StringLeqTotal(a: string, b: string)
    ensures StringLeq(a, b) || StringLeq(b, a)
    ensures StringLeq(a, b) && StringLeq(b, a) ==> a == b
  {
    if a != [] && b != [] && a[0] == b[0] {
      StringLeqTotal(a[1..], b[1..]);
      assert a == [a[0]] + a[1..] && b == [b[0]] + b[1..];
    }
  }

  lemma StringLeqTransitive(a: string, b: string, c: string)
    requires StringLeq(a, b) && StringLeq(b, c)
    ensures StringLeq(a, c)
  {
    if a != [] && a[0] == b[0] && b[0] == c[0] {
      StringLeqTransitive(a[1..], b[1..], c[1..]);
    }
  }

  lemma TupleLeqTotal(a: seq<string>, b: seq<string>)
    ensures TupleLeq(a, b) || TupleLeq(b, a)
    ensures TupleLeq(a, b) && TupleLeq(b, a) ==> a == b
  {
    if a != [] && b != [] {
      StringLeqTotal(a[0], b[0]);
      if a[0] == b[0] {
        TupleLeqTotal(a[1..], b[1..]);
        assert a == [a[0]] + a[1..] && b == [b[0]] + b[1..];
      }
    }
  }

  lemma TupleLeqTransitive(a: seq<string>, b: seq<string>, c: seq<string>)
    requires TupleLeq(a, b) && TupleLeq(b, c)
    ensures TupleLeq(a, c)
  {
    if a != [] {
      if a[0] == b[0] && b[0] == c[0] {
        TupleLeqTransitive(a[1..], b[1..], c[1..]);
      } else if a[0] != b[0] && b[0] != c[0] {
        StringLeqTransitive(a[0], b[0], c[0]);
        StringLeqTotal(a[0], b[0]);
      }
    }
  }

  /** A string comes first if it is a prefix, or has the smaller character where they first differ. */
  lemma {:induction false} StringLeqMeans(a: string, b: string)
    ensures StringLeq(a, b) <==>
              a <= b || exists i :: 0 <= i < |a| && i < |b| && a[..i] == b[..i] && a[i] < b[i]
  {
    if a != [] && b != [] {
      StringLeqMeans(a[1..], b[1..]);
      if StringLeq(a, b) && a[0] == b[0] && !(a <= b) {
        assert a == [a[0]] + a[1..] && b == [b[0]] + b[1..];
        var i :| 0 <= i < |a[1..]| && i < |b[1..]| && a[1..][..i] == b[1..][..i] && a[1..][i] < b[1..][i];
        assert a[..i + 1] == [a[0]] + a[1..][..i] && b[..i + 1] == [b[0]] + b[1..][..i];
        assert a[i + 1] < b[i + 1];
      } else if StringLeq(a, b) && a[0] < b[0] {
        assert a[..0] == b[..0];
      }
      if i :| 0 <= i < |a| && i < |b| && a[..i] == b[..i] && a[i] < b[i] {
        if i > 0 {
          assert a[0] == a[..i][0] && b[0] == b[..i][0];
          assert a[1..][..i - 1] == a[..i][1..] && b[1..][..i - 1] == b[..i][1..];
          assert a[1..][i - 1] < b[1..][i - 1];
        }
      }
      if a <= b {
        assert a[0] == b[0] && a[1..] <= b[1..];
      }
    }
  }

  /** Tuples of one length are compared where they first differ. */
  lemma {:induction false} TupleLeqMeans(a: seq<string>, b: seq<string>)
    requires |a| == |b|
    ensures TupleLeq(a, b) <==>
              a == b || exists i :: 0 <= i < |a| && a[..i] == b[..i] && a[i] != b[i] && StringLeq(a[i], b[i])
  {
    if a != [] {
      TupleLeqMeans(a[1..], b[1..]);
      assert a == [a[0]] + a[1..] && b == [b[0]] + b[1..];
      if TupleLeq(a, b) && a != b {
        if a[0] == b[0] {
          var i :| 0 <= i < |a[1..]| && a[1..][..i] == b[1..][..i] && a[1..][i] != b[1..][i]
                   && StringLeq(a[1..][i], b[1..][i]);
          assert a[..i + 1] == [a[0]] + a[1..][..i] && b[..i + 1] == [b[0]] + b[1..][..i];
          assert a[i + 1] != b[i + 1] && StringLeq(a[i + 1], b[i + 1]);
        } else {
          assert a[..0] == b[..0];
        }
      }
      if i :| 0 <= i < |a| && a[..i] == b[..i] && a[i] != b[i] && StringLeq(a[i], b[i]) {
        if i > 0 {
          assert a[0] == a[..i][0] && b[0] == b[..i][0];
          assert a[1..][..i - 1] == a[..i][1..] && b[1..][..i - 1] == b[..i][1..];
          assert a[1..][i - 1] == a[i] && b[1..][i - 1] == b[i];
        }
      }
    }
  }

  // ----- Stable sort ---------------------------------------------------------------

  /** Insert before the first element that is not smaller: equal keys keep their order. */
  function Insert<T>(key: T -> seq<string>, x: T, s: seq<T>): seq<T> {
    if s == [] then [x]
    else if TupleLeq(key(x), key(s[0])) then [x] + s
    else [s[0]] + Insert(key, x, s[1..])
  }

  /** `list.sort(key=...)`. */
  function Sort<T>(key: T -> seq<string>, s: seq<T>): seq<T> {
    if s == [] then [] else Insert(key, s[0], Sort(key, s[1..]))
  }

  ghost predicate Sorted<T>(key: T -> seq<string>, s: seq<T>) {
    forall i, j :: 0 <= i < j < |s| ==> TupleLeq(key(s[i]), key(s[j]))
  }

  lemma {:induction false} InsertPermutes<T>(key: T -> seq<string>, x: T, s: seq<T>)
    ensures Permutes(Insert(key, x, s), [x] + s)
  {
    if s != [] && !TupleLeq(key(x), key(s[0])) {
      InsertPermutes(key, x, s[1..]);
      assert s == [s[0]] + s[1..];
    }
  }

  lemma {:induction false} InsertSorted<T>(key: T -> seq<string>, x: T, s: seq<T>)
    requires Sorted(key, s)
    ensures Sorted(key, Insert(key, x, s))
  {
    if s != [] {
      if TupleLeq(key(x), key(s[0])) {
        forall j | 0 <= j < |s| ensures TupleLeq(key(x), key(s[j])) {
          if j > 0 {
            TupleLeqTransitive(key(x), key(s[0]), key(s[j]));
          }
        }
      } else {
        var rest := Insert(key, x, s[1..]);
        InsertSorted(key, x, s[1..]);
        InsertPermutes(key, x, s[1..]);
        var all := [x] + s[1..];
        assert Permutes(rest, all);
        PermutesMembers(rest, all);
        TupleLeqTotal(key(x), key(s[0]));
        forall j | 0 <= j < |rest| ensures TupleLeq(key(s[0]), key(rest[j])) {
          assert rest[j] in rest;
          if rest[j] != x {
            var i :| 1 <= i < |s| && s[i] == rest[j];
          }
        }
      }
    }
  }

  lemma {:induction false} SortSorted<T>(key: T -> seq<string>, s: seq<T>)
    ensures Permutes(Sort(key, s), s)
    ensures Sorted(key, Sort(key, s))
  {
    if s != [] {
      SortSorted(key, s[1..]);
      InsertSorted(key, s[0], Sort(key, s[1..]));
      InsertPermutes(key, s[0], Sort(key, s[1..]));
      assert s == [s[0]] + s[1..];
    }
  }

  /** The key decides the element, on the elements of `s`. */
  ghost predicate KeyDetermines<T(!new)>(key: T -> seq<string>, s: seq<T>) {
    forall x, y :: x in s && y in s && key(x) == key(y) ==> x == y
  }

  // ----- Stability ----------------------------------------------------------------------------

  function AtKey<T>(key: T -> seq<string>, k: seq<string>): T -> bool {
    x => key(x) == k
  }

  lemma {:induction false} InsertStable<T>(key: T -> seq<string>, x: T, s: seq<T>, k: seq<string>)
    requires Sorted(key, s)
    ensures Filter(AtKey(key, k), Insert(key, x, s)) == (if key(x) == k then [x] else []) + Filter(AtKey(key, k), s)
  {
    if s != [] && !TupleLeq(key(x), key(s[0])) {
      InsertStable(key, x, s[1..], k);
      assert ([s[0]] + Insert(key, x, s[1..]))[1..] == Insert(key, x, s[1..]);
      if key(x) == k {
        TupleLeqTotal(key(x), key(s[0]));
        assert Filter(AtKey(key, k), s) == Filter(AtKey(key, k), s[1..]);
      }
    } else {
      assert ([x] + s)[1..] == s;
    }
  }

  /** Elements with equal keys keep their order. */
  lemma {:induction false} SortStable<T>(key: T -> seq<string>, s: seq<T>, k: seq<string>)
    ensures Filter(AtKey(key, k), Sort(key, s)) == Filter(AtKey(key, k), s)
  {
    if s != [] {
      SortStable(key, s[1..], k);
      SortSorted(key, s[1..]);
      InsertStable(key, s[0], Sort(key, s[1..]), k);
    }
  }

  /** The elements of each key come in the same order in both lists. */
  ghost predicate SameByKey<T>(key: T -> seq<string>, a: seq<T>, b: seq<T>) {
    forall k :: Filter(AtKey(key, k), a) == Filter(AtKey(key, k), b)
  }

  lemma KeyOccurs<T>(key: T -> seq<string>, a: seq<T>, b: seq<T>)
    requires Sorted(key, b) && SameByKey(key, a, b) && a != []
    ensures b != [] && TupleLeq(key(b[0]), key(a[0]))
  {
    var p := AtKey(key, key(a[0]));
    FilterMember(p, a, a[0]);
    FilterMember(p, b, a[0]);
    var i :| 0 <= i < |b| && b[i] == a[0];
    TupleLeqTotal(key(b[0]), key(b[0]));
  }

  lemma SamePrefix<T>(head: seq<T>, a: seq<T>, b: seq<T>)
    requires head + a == head + b
    ensures a == b
  {
    assert (head + a)[|head|..] == a && (head + b)[|head|..] == b;
  }

  lemma {:induction false} SortedByKey<T>(key: T -> seq<string>, a: seq<T>, b: seq<T>)
    requires Sorted(key, a) && Sorted(key, b) && SameByKey(key, a, b)
    ensures a == b
  {
    if a == [] {
      if b != [] {
        KeyOccurs(key, b, a);
      }
    } else {
      KeyOccurs(key, a, b);
      KeyOccurs(key, b, a);
      TupleLeqTotal(key(a[0]), key(b[0]));
      assert Filter(AtKey(key, key(a[0])), a)[0] == a[0];
      assert Filter(AtKey(key, key(a[0])), b)[0] == b[0];
      forall k | true ensures Filter(AtKey(key, k), a[1..]) == Filter(AtKey(key, k), b[1..]) {
        var head := if key(a[0]) == k then [a[0]] else [];
        assert Filter(AtKey(key, k), a) == Filter(AtKey(key, k), b);
        assert Filter(AtKey(key, k), a) == head + Filter(AtKey(key, k), a[1..]);
        assert Filter(AtKey(key, k), b) == head + Filter(AtKey(key, k), b[1..]);
        SamePrefix(head, Filter(AtKey(key, k), a[1..]), Filter(AtKey(key, k), b[1..]));
      }
      SortedByKey(key, a[1..], b[1..]);
      assert a == [a[0]] + a[1..] && b == [b[0]] + b[1..];
    }
  }

  /** A stable sort is decided by the order of the elements within each key. */
  lemma SortDecidedByKey<T>(key: T -> seq<string>, a: seq<T>, b: seq<T>)
    requires SameByKey(key, a, b)
    ensures Sort(key, a) == Sort(key, b)
  {
    SortSorted(key, a);
    SortSorted(key, b);
    forall k | true ensures Filter(AtKey(key, k), Sort(key, a)) == Filter(AtKey(key, k), Sort(key, b)) {
      SortStable(key, a, k);
      SortStable(key, b, k);
    }
    SortedByKey(key, Sort(key, a), Sort(key, b));
  }

  /** Sorting a sorted list changes nothing. */
  lemma SortedStays<T>(key: T -> seq<string>, s: seq<T>)
    requires Sorted(key, s)
    ensures Sort(key, s) == s
  {
    SortSorted(key, s);
    forall k | true ensures Filter(AtKey(key, k), Sort(key, s)) == Filter(AtKey(key, k), s) {
      SortStable(key, s, k);
    }
    SortedByKey(key, Sort(key, s), s);
  }

  /** Lists whose elements are all equal are decided by their length. */
  lemma {:induction false} ConstantLists<T>(a: seq<T>, b: seq<T>)
    requires Permutes(a, b) && forall x, y :: x in a && y in a ==> x == y
    ensures a == b
  {
    PermutesMembers(a, b);
    forall i | 0 <= i < |a| ensures a[i] == b[i] {
      assert a[i] in a && b[i] in b;
    }
  }

  /** When keys decide elements, a permutation keeps the order within each key. */
  lemma PermutationSameByKey<T(!new)>(key: T -> seq<string>, a: seq<T>, b: seq<T>)
    requires Permutes(a, b) && KeyDetermines(key, a)
    ensures SameByKey(key, a, b)
  {
    forall k | true ensures Filter(AtKey(key, k), a) == Filter(AtKey(key, k), b) {
      PermutesFilter(AtKey(key, k), a, b);
      forall x | x in Filter(AtKey(key, k), a) ensures x in a && key(x) == k {
        FilterMember(AtKey(key, k), a, x);
      }
      ConstantLists(Filter(AtKey(key, k), a), Filter(AtKey(key, k), b));
    }
  }

  /** When keys decide elements, sorting forgets the order of the input. */
  lemma SortPermutation<T(!new)>(key: T -> seq<string>, a: seq<T>, b: seq<T>)
    requires Permutes(a, b) && KeyDetermines(key, a)
    ensures Sort(key, a) == Sort(key, b)
  {
    PermutationSameByKey(key, a, b);
    SortDecidedByKey(key, a, b);
  }

  // ----- Sorting preserves sub-lists -------------------------------------------------

  /** Related elements have the same key. */
  ghost predicate KeepsKey<T(!new)>(rel: (T, T) -> bool, key: T -> seq<string>) {
    forall x, y :: rel(x, y) ==> key(x) == key(y)
  }

  lemma {:induction false} InsertSublist<T(!new)>(rel: (T, T) -> bool, key: T -> seq<string>, x: T, y: T,
                                                  a: seq<T>, b: seq<T>)
    requires KeepsKey(rel, key) && rel(x, y)
    requires Sorted(key, a) && Sorted(key, b) && SublistBy(rel, a, b)
    ensures SublistBy(rel, Insert(key, x, a), Insert(key, y, b))
  {
    if b == [] {
      assert a == [];
    } else if TupleLeq(key(y), key(b[0])) {
      if a != [] {
        HeadBelow(rel, key, a, b);
        TupleLeqTransitive(key(x), key(b[0]), key(a[0]));
      }
      assert Insert(key, x, a) == [x] + a;
      assert SublistBy(rel, [x] + a, [y] + b) by {
        assert ([x] + a)[1..] == a && ([y] + b)[1..] == b;
      }
    } else {
      var rest := Insert(key, y, b[1..]);
      assert ([b[0]] + rest)[1..] == rest;
      if a != [] && rel(a[0], b[0]) && SublistBy(rel, a[1..], b[1..]) {
        InsertSublist(rel, key, x, y, a[1..], b[1..]);
        assert ([a[0]] + Insert(key, x, a[1..]))[1..] == Insert(key, x, a[1..]);
      } else {
        assert SublistBy(rel, a, b[1..]);
        InsertSublist(rel, key, x, y, a, b[1..]);
      }
    }
  }

  lemma {:induction false} HeadBelow<T(!new)>(rel: (T, T) -> bool, key: T -> seq<string>, a: seq<T>, b: seq<T>)
    requires KeepsKey(rel, key) && SublistBy(rel, a, b) && Sorted(key, b) && a != []
    ensures TupleLeq(key(b[0]), key(a[0]))
  {
    if rel(a[0], b[0]) {
      TupleLeqTotal(key(a[0]), key(b[0]));
    } else {
      HeadBelow(rel, key, a, b[1..]);
      TupleLeqTransitive(key(b[0]), key(b[1]), key(a[0]));
    }
  }

  lemma {:induction false} InsertSkips<T(!new)>(rel: (T, T) -> bool, key: T -> seq<string>, y: T, a: seq<T>, b: seq<T>)
    requires SublistBy(rel, a, b)
    ensures SublistBy(rel, a, Insert(key, y, b))
  {
    if b != [] && a != [] {
      if TupleLeq(key(y), key(b[0])) {
        SublistSkip(rel, a, [y], b);
      } else {
        var rest := Insert(key, y, b[1..]);
        assert ([b[0]] + rest)[1..] == rest;
        if rel(a[0], b[0]) && SublistBy(rel, a[1..], b[1..]) {
          InsertSkips(rel, key, y, a[1..], b[1..]);
        } else {
          InsertSkips(rel, key, y, a, b[1..]);
        }
      }
    }
  }

  lemma {:induction false} SortSublist<T(!new)>(rel: (T, T) -> bool, key: T -> seq<string>, a: seq<T>, b: seq<T>)
    requires KeepsKey(rel, key) && SublistBy(rel, a, b)
    ensures SublistBy(rel, Sort(key, a), Sort(key, b))
  {
    if a != [] {
      SortSorted(key, a[1..]);
      SortSorted(key, b[1..]);
      if rel(a[0], b[0]) && SublistBy(rel, a[1..], b[1..]) {
        SortSublist(rel, key, a[1..], b[1..]);
        InsertSublist(rel, key, a[0], b[0], Sort(key, a[1..]), Sort(key, b[1..]));
      } else {
        SortSublist(rel, key, a, b[1..]);
        InsertSkips(rel, key, b[0], Sort(key, a), Sort(key, b[1..]));
      }
    }
  }
}
