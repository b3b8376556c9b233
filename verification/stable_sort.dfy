/** The sorting library routines the services call (Python `sorted`/`list.sort`, Go `sort.Slice`
    on distinct keys, SQL `ORDER BY`), as one stable sort and its complete specification. */
module StableSort {

  ghost predicate TotalPreorder<T(!new)>(le: (T, T) -> bool) {
    && (forall x, y :: le(x, y) || le(y, x))
    && (forall x, y, z :: le(x, y) && le(y, z) ==> le(x, z))
  }

  ghost predicate Sorted<T>(xs: seq<T>, le: (T, T) -> bool) {
    forall i, j | 0 <= i < j < |xs| :: le(xs[i], xs[j])
  }

  function Insert<T>(x: T, xs: seq<T>, le: (T, T) -> bool): seq<T> {
    if xs == [] || le(x, xs[0]) then [x] + xs else [xs[0]] + Insert(x, xs[1..], le)
  }

  function Sort<T>(xs: seq<T>, le: (T, T) -> bool): seq<T> {
    if xs == [] then [] else Insert(xs[0], Sort(xs[1..], le), le)
  }

  /** The elements of `xs` that `le` does not separate from `x`, in order. */
  ghost function Ties<T>(x: T, xs: seq<T>, le: (T, T) -> bool): seq<T> {
    if xs == [] then []
    else (if le(x, xs[0]) && le(xs[0], x) then [xs[0]] else []) + Ties(x, xs[1..], le)
  }

  /** `ys` holds the elements of `xs`, and elements that tie keep their order. */
  ghost predicate StableRearrangement<T(!new)>(xs: seq<T>, ys: seq<T>, le: (T, T) -> bool) {
    && multiset(xs) == multiset(ys)
    && (forall x :: Ties(x, xs, le) == Ties(x, ys, le))
  }

  lemma {:induction false} InsertSorts<T(!new)>(x: T, xs: seq<T>, le: (T, T) -> bool)
    requires TotalPreorder(le) && Sorted(xs, le)
    ensures Sorted(Insert(x, xs, le), le)
    ensures multiset(Insert(x, xs, le)) == multiset(xs) + multiset{x}
  {
    if xs == [] || le(x, xs[0]) {
    } else {
      var head, rest := xs[0], Insert(x, xs[1..], le);
      InsertSorts(x, xs[1..], le);
      assert xs == [head] + xs[1..];
      forall y | y in rest ensures le(head, y) {
        assert y in multiset(rest);
        assert y in xs[1..] || y == x;
      }
      ConsSorted(head, rest, le);
    }
  }

  lemma ConsSorted<T>(head: T, rest: seq<T>, le: (T, T) -> bool)
    requires Sorted(rest, le) && forall y | y in rest :: le(head, y)
    ensures Sorted([head] + rest, le)
  {
  }

  lemma {:induction false} InsertTies<T(!new)>(x: T, xs: seq<T>, le: (T, T) -> bool, y: T)
    requires TotalPreorder(le)
    ensures Ties(y, Insert(x, xs, le), le) == Ties(y, [x] + xs, le)
  {
    if xs == [] || le(x, xs[0]) {
    } else {
      var head := xs[0];
      InsertTies(x, xs[1..], le, y);
      assert ([x] + xs)[1..] == xs && ([x] + xs[1..])[1..] == xs[1..];
      assert le(x, y) && le(y, head) ==> le(x, head);
    }
  }

  lemma {:induction false} SortSorts<T(!new)>(xs: seq<T>, le: (T, T) -> bool)
    requires TotalPreorder(le)
    ensures Sorted(Sort(xs, le), le) && multiset(Sort(xs, le)) == multiset(xs)
  {
    if xs != [] {
      SortSorts(xs[1..], le);
      InsertSorts(xs[0], Sort(xs[1..], le), le);
      assert xs == [xs[0]] + xs[1..];
      hide Sorted, Insert;
    }
  }

  lemma {:induction false} SortTies<T(!new)>(xs: seq<T>, le: (T, T) -> bool, y: T)
    requires TotalPreorder(le)
    ensures Ties(y, Sort(xs, le), le) == Ties(y, xs, le)
  {
    if xs != [] {
      var rest := Sort(xs[1..], le);
      SortTies(xs[1..], le, y);
      InsertTies(xs[0], rest, le, y);
      assert ([xs[0]] + rest)[1..] == rest;
      hide Insert;
    }
  }

  /** `Sort` sorts, keeps every element, and keeps tied elements in their order. */
  lemma SortIsStable<T(!new)>(xs: seq<T>, le: (T, T) -> bool)
    requires TotalPreorder(le)
    ensures Sorted(Sort(xs, le), le)
    ensures StableRearrangement(xs, Sort(xs, le), le)
    ensures |Sort(xs, le)| == |xs|
  {
    SortSorts(xs, le);
    assert |multiset(xs)| == |multiset(Sort(xs, le))|;
    hide Sort, Ties, Sorted;
    forall y ensures Ties(y, xs, le) == Ties(y, Sort(xs, le), le) {
      SortTies(xs, le, y);
    }
  }

  lemma {:induction false} TieIsMember<T>(x: T, xs: seq<T>, le: (T, T) -> bool)
    ensures forall y | y in Ties(x, xs, le) :: y in xs && le(x, y) && le(y, x)
    ensures forall y | y in xs && le(x, y) && le(y, x) :: y in Ties(x, xs, le)
  {
    if xs != [] {
      TieIsMember(x, xs[1..], le);
      assert xs == [xs[0]] + xs[1..];
    }
  }

  lemma TiesShareMembers<T(!new)>(ys: seq<T>, zs: seq<T>, le: (T, T) -> bool)
    requires TotalPreorder(le)
    requires forall x :: Ties(x, ys, le) == Ties(x, zs, le)
    ensures forall x | x in ys :: x in zs
    ensures ys != [] ==> zs != []
  {
    forall x | x in ys ensures x in zs {
      TieIsMember(x, ys, le);
      TieIsMember(x, zs, le);
    }
    if ys != [] {
      assert ys[0] in zs;
    }
  }

  /** There is only one stable sorted rearrangement, so the specification pins the result down. */
  lemma {:induction false} StableSortIsUnique<T(!new)>(ys: seq<T>, zs: seq<T>, le: (T, T) -> bool)
    requires TotalPreorder(le) && Sorted(ys, le) && Sorted(zs, le)
    requires forall x :: Ties(x, ys, le) == Ties(x, zs, le)
    ensures ys == zs
  {
    TiesShareMembers(ys, zs, le);
    TiesShareMembers(zs, ys, le);
    if ys != [] {
      assert ys[0] in ys && ys[0] in zs;
      assert zs[0] in zs && zs[0] in ys;
      assert le(zs[0], ys[0]) && le(ys[0], zs[0]);
      assert Ties(ys[0], ys, le)[0] == ys[0] && Ties(ys[0], zs, le)[0] == zs[0];
      forall x ensures Ties(x, ys[1..], le) == Ties(x, zs[1..], le) {
        assert Ties(x, ys, le) == Ties(x, zs, le);
        var h := if le(x, ys[0]) && le(ys[0], x) then [ys[0]] else [];
        assert Ties(x, ys, le) == h + Ties(x, ys[1..], le);
        assert Ties(x, zs, le) == h + Ties(x, zs[1..], le);
        assert (h + Ties(x, ys[1..], le))[|h|..] == Ties(x, ys[1..], le);
        assert (h + Ties(x, zs[1..], le))[|h|..] == Ties(x, zs[1..], le);
      }
      StableSortIsUnique(ys[1..], zs[1..], le);
      assert ys == [ys[0]] + ys[1..] && zs == [zs[0]] + zs[1..];
    }
  }

  /** Membership survives sorting. */
  lemma SortMembers<T(!new)>(xs: seq<T>, le: (T, T) -> bool)
    requires TotalPreorder(le)
    ensures forall x :: x in xs <==> x in Sort(xs, le)
  {
    SortIsStable(xs, le);
    forall x ensures x in xs <==> x in Sort(xs, le) {
      assert x in xs <==> x in multiset(xs);
      assert x in Sort(xs, le) <==> x in multiset(Sort(xs, le));
    }
  }

  ghost predicate Distinct<T>(xs: seq<T>) {
    forall i, j | 0 <= i < j < |xs| :: xs[i] != xs[j]
  }

  lemma DistinctByCount<T>(xs: seq<T>)
    requires forall x | x in multiset(xs) :: multiset(xs)[x] == 1
    ensures Distinct(xs)
  {
    forall i, j | 0 <= i < j < |xs| ensures xs[i] != xs[j] {
      assert xs == xs[..j] + xs[j..] && xs[j..] == [xs[j]] + xs[j + 1..];
      assert xs[i] in xs[..j];
      assert multiset(xs) == multiset(xs[..j]) + multiset{xs[j]} + multiset(xs[j + 1..]);
      assert xs[j] in multiset(xs);
    }
  }

  lemma {:induction false} CountOfDistinct<T>(xs: seq<T>)
    requires Distinct(xs)
    ensures forall x | x in multiset(xs) :: multiset(xs)[x] == 1
  {
    if xs != [] {
      CountOfDistinct(xs[1..]);
      assert xs == [xs[0]] + xs[1..];
      assert xs[0] !in xs[1..];
    }
  }

  /** Sorting distinct elements gives distinct elements. */
  lemma SortKeepsDistinct<T(!new)>(xs: seq<T>, le: (T, T) -> bool)
    requires TotalPreorder(le) && Distinct(xs)
    ensures Distinct(Sort(xs, le))
  {
    SortIsStable(xs, le);
    CountOfDistinct(xs);
    DistinctByCount(Sort(xs, le));
  }
}

/** The order on strings that Python and Go compare by: lexicographic in the characters. */
module StringOrder {
  import StableSort

  predicate StrLe(a: string, b: string) {
    if a == [] then true
    else if b == [] then false
    else if a[0] != b[0] then a[0] < b[0]
    else StrLe(a[1..], b[1..])
  }

  lemma {:induction false} StrLeTotal(a: string, b: string)
    ensures StrLe(a, b) || StrLe(b, a)
  {
    if a != [] && b != [] && a[0] == b[0] {
      StrLeTotal(a[1..], b[1..]);
    }
  }

  lemma {:induction false} StrLeAntisymmetric(a: string, b: string)
    requires StrLe(a, b) && StrLe(b, a)
    ensures a == b
  {
    if a != [] && b != [] {
      StrLeAntisymmetric(a[1..], b[1..]);
      assert a == [a[0]] + a[1..] && b == [b[0]] + b[1..];
    }
  }

  lemma {:induction false} StrLeTransitive(a: string, b: string, c: string)
    requires StrLe(a, b) && StrLe(b, c)
    ensures StrLe(a, c)
  {
    if a != [] && b != [] && c != [] && a[0] == b[0] && b[0] == c[0] {
      StrLeTransitive(a[1..], b[1..], c[1..]);
    }
  }

  lemma StrLeIsTotalPreorder()
    ensures StableSort.TotalPreorder(StrLe)
  {
    forall a, b ensures StrLe(a, b) || StrLe(b, a) { StrLeTotal(a, b); }
    forall a, b, c | StrLe(a, b) && StrLe(b, c) ensures StrLe(a, c) { StrLeTransitive(a, b, c); }
  }
  /** `a` comes before `b` at their first difference, or is a beginning of it. */
  lemma {:induction false} StrLeIff(a: string, b: string)
    ensures StrLe(a, b) <==> a <= b || exists i | 0 <= i < |a| && i < |b| :: a[..i] == b[..i] && a[i] < b[i]
  {
    if a != [] && b != [] {
      StrLeIff(a[1..], b[1..]);
      if a[0] == b[0] {
        assert a <= b <==> a[1..] <= b[1..] by { assert a == [a[0]] + a[1..] && b == [b[0]] + b[1..]; }
        if i :| 0 <= i < |a[1..]| && i < |b[1..]| && a[1..][..i] == b[1..][..i] && a[1..][i] < b[1..][i] {
          assert a[..i + 1] == [a[0]] + a[1..][..i] && b[..i + 1] == [b[0]] + b[1..][..i];
          assert a[i + 1] < b[i + 1];
        }
        if i :| 0 <= i < |a| && i < |b| && a[..i] == b[..i] && a[i] < b[i] {
          assert a[1..][..i - 1] == a[..i][1..] && b[1..][..i - 1] == b[..i][1..];
          assert a[1..][i - 1] < b[1..][i - 1];
        }
      } else {
        assert a[..0] == b[..0];
        if i :| 0 < i < |a| && i < |b| && a[..i] == b[..i] {
          assert a[..i][0] == b[..i][0];
        }
      }
    }
  }
}
