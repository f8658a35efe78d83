/**
 * Lists of records keyed by id, as the app keeps them in its local state:
 * `{ id, ...payload }` objects filtered, appended and sorted with the
 * array built-ins.
 */
module Collections {

  /** A stored record: its id together with the payload spread after it. */
  datatype Record<T> = Record(id: string, data: T)

  /** Some record carries this id. */
  predicate HasId<T(!new)>(xs: seq<Record<T>>, id: string)
  {
    exists i | 0 <= i < |xs| :: xs[i].id == id
  }

  /** No two records share an id. */
  predicate UniqueIds<T(!new)>(xs: seq<Record<T>>)
  {
    forall i, j | 0 <= i < j < |xs| :: xs[i].id != xs[j].id
  }

  /** The ids, in order. */
  function Ids<T(!new)>(xs: seq<Record<T>>): (r: seq<string>)
    ensures |r| == |xs| && forall i | 0 <= i < |xs| :: r[i] == xs[i].id
  {
    seq(|xs|, i requires 0 <= i < |xs| => xs[i].id)
  }

  /** `xs.filter((x) => x.id !== id)` */
  function RemoveId<T(!new)>(xs: seq<Record<T>>, id: string): (r: seq<Record<T>>)
    ensures |r| <= |xs|
    ensures forall x :: x in r <==> x in xs && x.id != id
    ensures !HasId(r, id)
    ensures !HasId(xs, id) ==> r == xs
    decreases |xs|
  {
    if xs == [] then []
    else if xs[0].id == id then RemoveId(xs[1..], id)
    else [xs[0]] + RemoveId(xs[1..], id)
  }

  /** Removing by id works piecewise, so the surviving records keep their order. */
  lemma {:induction false} RemoveIdAppend<T(!new)>(a: seq<Record<T>>, b: seq<Record<T>>, id: string)
    ensures RemoveId(a + b, id) == RemoveId(a, id) + RemoveId(b, id)
    decreases |a|
  {
    if a == [] {
      assert a + b == b;
    } else {
      assert (a + b)[0] == a[0];
      assert (a + b)[1..] == a[1..] + b;
      RemoveIdAppend(a[1..], b, id);
      if a[0].id == id {
        calc {
          RemoveId(a + b, id);
          RemoveId(a[1..] + b, id);
          RemoveId(a[1..], id) + RemoveId(b, id);
        }
      } else {
        calc {
          RemoveId(a + b, id);
          [a[0]] + RemoveId(a[1..] + b, id);
          [a[0]] + (RemoveId(a[1..], id) + RemoveId(b, id));
          ([a[0]] + RemoveId(a[1..], id)) + RemoveId(b, id);
        }
      }
    }
  }

  /** Removing the same id twice changes nothing the second time. */
  lemma RemoveIdIdempotent<T(!new)>(xs: seq<Record<T>>, id: string)
    ensures RemoveId(RemoveId(xs, id), id) == RemoveId(xs, id)
  {
  }

  /** Every record is kept or dropped exactly as often as it occurs. */
  lemma {:induction false} RemoveIdCount<T(!new)>(xs: seq<Record<T>>, id: string, x: Record<T>)
    ensures multiset(RemoveId(xs, id))[x] == if x.id == id then 0 else multiset(xs)[x]
    decreases |xs|
  {
    if xs != [] {
      assert xs == [xs[0]] + xs[1..];
      RemoveIdCount(xs[1..], id, x);
    }
  }

  /** Removal keeps ids unique. */
  lemma {:induction false} RemoveIdKeepsUnique<T(!new)>(xs: seq<Record<T>>, id: string)
    requires UniqueIds(xs)
    ensures UniqueIds(RemoveId(xs, id))
    decreases |xs|
  {
    if xs != [] {
      RemoveIdKeepsUnique(xs[1..], id);
      var rest := RemoveId(xs[1..], id);
      forall k | 0 <= k < |rest| ensures rest[k].id != xs[0].id {
        assert rest[k] in xs[1..];
      }
    }
  }

  /** `xs.filter(p)` */
  function Filter<T(!new)>(xs: seq<T>, p: T -> bool): (r: seq<T>)
    ensures |r| <= |xs|
    ensures forall x :: x in r <==> x in xs && p(x)
    decreases |xs|
  {
    if xs == [] then []
    else if p(xs[0]) then [xs[0]] + Filter(xs[1..], p)
    else Filter(xs[1..], p)
  }

  /** Filtering works piecewise, so it keeps the order of what it keeps. */
  lemma {:induction false} FilterAppend<T(!new)>(a: seq<T>, b: seq<T>, p: T -> bool)
    ensures Filter(a + b, p) == Filter(a, p) + Filter(b, p)
    decreases |a|
  {
    if a == [] {
      assert a + b == b;
    } else {
      assert (a + b)[0] == a[0];
      assert (a + b)[1..] == a[1..] + b;
      FilterAppend(a[1..], b, p);
      if p(a[0]) {
        calc {
          Filter(a + b, p);
          [a[0]] + Filter(a[1..] + b, p);
          [a[0]] + (Filter(a[1..], p) + Filter(b, p));
          ([a[0]] + Filter(a[1..], p)) + Filter(b, p);
        }
      }
    }
  }

  /** One step of `filter`. */
  lemma FilterCons<T(!new)>(x: T, xs: seq<T>, p: T -> bool)
    ensures Filter([x] + xs, p) == (if p(x) then [x] else []) + Filter(xs, p)
  {
    assert ([x] + xs)[1..] == xs;
  }

  /** The elements of `xs` whose flag in `mask` is set, in order. */
  function Select<T>(xs: seq<T>, mask: seq<bool>): seq<T>
    requires |mask| == |xs|
    decreases |xs|
  {
    if xs == [] then [] else (if mask[0] then [xs[0]] else []) + Select(xs[1..], mask[1..])
  }

  /** Filtering by a test whose outcome on each element is known. */
  lemma {:induction false} FilterByMask<T(!new)>(xs: seq<T>, p: T -> bool, mask: seq<bool>)
    requires |mask| == |xs| && forall i | 0 <= i < |xs| :: p(xs[i]) == mask[i]
    ensures Filter(xs, p) == Select(xs, mask)
    decreases |xs|
  {
    if xs != [] {
      FilterByMask(xs[1..], p, mask[1..]);
      FilterCons(xs[0], xs[1..], p);
      assert xs == [xs[0]] + xs[1..];
    }
  }

  /** Ascending by a numeric key. */
  predicate SortedBy<T(!new)>(xs: seq<T>, key: T -> int)
  {
    forall i, j | 0 <= i < j < |xs| :: key(xs[i]) <= key(xs[j])
  }

  /** Places `x` after every element whose key is not greater, keeping equal keys in order. */
  function InsertByKey<T(!new)>(xs: seq<T>, x: T, key: T -> int): (r: seq<T>)
    requires SortedBy(xs, key)
    ensures SortedBy(r, key)
    ensures multiset(r) == multiset(xs) + multiset{x}
    decreases |xs|
  {
    if xs == [] then [x]
    else if key(x) < key(xs[0]) then [x] + xs
    else
      var rest := InsertByKey(xs[1..], x, key);
      assert multiset(rest) == multiset(xs[1..]) + multiset{x};
      assert forall e | e in rest :: key(xs[0]) <= key(e) by {
        forall e | e in rest ensures key(xs[0]) <= key(e) {
          assert e in multiset(rest);
          assert xs == [xs[0]] + xs[1..];
        }
      }
      assert xs == [xs[0]] + xs[1..];
      [xs[0]] + rest
  }

  /**
   * `xs.sort((a, b) => key(a) - key(b))`: a stable insertion sort. The
   * result is ascending and holds the same elements as often as `xs` does.
   */
  function SortByKey<T(!new)>(xs: seq<T>, key: T -> int): (r: seq<T>)
    ensures SortedBy(r, key)
    ensures multiset(r) == multiset(xs)
    ensures |r| == |xs|
    decreases |xs|
  {
    if xs == [] then []
    else
      var init := SortByKey(xs[..|xs| - 1], key);
      assert xs == xs[..|xs| - 1] + [xs[|xs| - 1]];
      var r := InsertByKey(init, xs[|xs| - 1], key);
      assert |r| == |multiset(r)|;
      r
  }

  /** The elements whose key is `k`. */
  function KeyIs<T(!new)>(key: T -> int, k: int): T -> bool
  {
    (x: T) => key(x) == k
  }

  /** No element passes the test, so nothing is kept. */
  lemma FilterNone<T(!new)>(xs: seq<T>, p: T -> bool)
    requires forall i | 0 <= i < |xs| :: !p(xs[i])
    ensures Filter(xs, p) == []
  {
  }

  /** Inserting places `x` after the elements of equal key, so among them it comes last. */
  lemma {:induction false} InsertByKeyStable<T(!new)>(xs: seq<T>, x: T, key: T -> int, k: int)
    requires SortedBy(xs, key)
    ensures Filter(InsertByKey(xs, x, key), KeyIs(key, k)) ==
      Filter(xs, KeyIs(key, k)) + (if key(x) == k then [x] else [])
    decreases |xs|
  {
    var p := KeyIs(key, k);
    if xs == [] {
      FilterCons(x, [], p);
    } else if key(x) < key(xs[0]) {
      InsertBeforeSmallest(xs, x, key, k);
    } else {
      var rest := InsertAfterFirst(xs, x, key);
      InsertByKeyStable(xs[1..], x, key, k);
      FilterPrepend(xs[0], rest, xs[1..], p, if key(x) == k then [x] else []);
      assert xs == [xs[0]] + xs[1..];
    }
  }

  /** Putting the same element in front of two sequences keeps their filtered difference. */
  lemma FilterPrepend<T(!new)>(y: T, ys: seq<T>, zs: seq<T>, p: T -> bool, tail: seq<T>)
    requires Filter(ys, p) == Filter(zs, p) + tail
    ensures Filter([y] + ys, p) == Filter([y] + zs, p) + tail
  {
    FilterCons(y, ys, p);
    FilterCons(y, zs, p);
    ConcatAssoc(if p(y) then [y] else [], Filter(zs, p), tail);
  }

  /** Concatenation is associative. */
  lemma ConcatAssoc<T>(a: seq<T>, b: seq<T>, c: seq<T>)
    ensures a + (b + c) == (a + b) + c
  {
  }

  /** The case where `x` goes behind the first element. */
  lemma InsertAfterFirst<T(!new)>(xs: seq<T>, x: T, key: T -> int) returns (rest: seq<T>)
    requires SortedBy(xs, key) && xs != [] && key(xs[0]) <= key(x)
    ensures SortedBy(xs[1..], key)
    ensures rest == InsertByKey(xs[1..], x, key) && InsertByKey(xs, x, key) == [xs[0]] + rest
  {
    assert SortedBy(xs[1..], key);
    rest := InsertByKey(xs[1..], x, key);
  }

  /** The case where `x` goes in front: every element of `xs` has a larger key. */
  lemma InsertBeforeSmallest<T(!new)>(xs: seq<T>, x: T, key: T -> int, k: int)
    requires SortedBy(xs, key) && xs != [] && key(x) < key(xs[0])
    ensures Filter(InsertByKey(xs, x, key), KeyIs(key, k)) ==
      Filter(xs, KeyIs(key, k)) + (if key(x) == k then [x] else [])
  {
    var p := KeyIs(key, k);
    assert InsertByKey(xs, x, key) == [x] + xs;
    FilterCons(x, xs, p);
    if key(x) == k {
      assert forall i | 0 <= i < |xs| :: !p(xs[i]) by {
        forall i | 0 <= i < |xs| ensures !p(xs[i]) {
          assert key(xs[0]) <= key(xs[i]);
        }
      }
      FilterNone(xs, p);
    }
  }

  /**
   * The sort is stable: the elements sharing any one key come out in the
   * order they went in.
   */
  lemma {:induction false} SortByKeyStable<T(!new)>(xs: seq<T>, key: T -> int, k: int)
    ensures Filter(SortByKey(xs, key), KeyIs(key, k)) == Filter(xs, KeyIs(key, k))
    decreases |xs|
  {
    if xs != [] {
      var init, last := xs[..|xs| - 1], xs[|xs| - 1];
      SortByKeyStable(init, key, k);
      InsertByKeyStable(SortByKey(init, key), last, key, k);
      FilterSnoc(xs, KeyIs(key, k));
    }
  }

  /** Filtering a non-empty sequence, its last element separately. */
  lemma FilterSnoc<T(!new)>(xs: seq<T>, p: T -> bool)
    requires xs != []
    ensures Filter(xs, p) == Filter(xs[..|xs| - 1], p) + (if p(xs[|xs| - 1]) then [xs[|xs| - 1]] else [])
  {
    var init, last := xs[..|xs| - 1], xs[|xs| - 1];
    assert xs == init + [last];
    FilterAppend(init, [last], p);
    FilterCons(last, [], p);
    assert [last] + [] == [last];
  }
}
