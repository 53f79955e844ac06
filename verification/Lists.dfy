/** Filtering, and lists without two elements of the same key. */
module Lists {

  function Filter<T>(p: T -> bool, xs: seq<T>): seq<T> {
    if xs == [] then []
    else (if p(xs[0]) then [xs[0]] else []) + Filter(p, xs[1..])
  }

  predicate HasKey<T, K(==)>(key: T -> K, xs: seq<T>, k: K) {
    exists i :: 0 <= i < |xs| && key(xs[i]) == k
  }

  ghost predicate Distinct<T, K>(key: T -> K, xs: seq<T>) {
    forall i, j :: 0 <= i < j < |xs| ==> key(xs[i]) != key(xs[j])
  }

  lemma {:induction false} FilterMember<T>(p: T -> bool, xs: seq<T>, x: T)
    ensures x in Filter(p, xs) <==> x in xs && p(x)
  {
    if xs == [] {
    } else {
      FilterMember(p, xs[1..], x);
    }
  }

  lemma DistinctCons<T, K>(key: T -> K, xs: seq<T>)
    requires xs != []
    ensures Distinct(key, xs) <==> Distinct(key, xs[1..]) && forall x :: x in xs[1..] ==> key(x) != key(xs[0])
  {
    if Distinct(key, xs[1..]) && forall x :: x in xs[1..] ==> key(x) != key(xs[0]) {
      forall i, j | 0 <= i < j < |xs|
        ensures key(xs[i]) != key(xs[j])
      {
        assert xs[1..][j - 1] == xs[j];
        if i > 0 {
          assert xs[1..][i - 1] == xs[i];
        }
      }
    }
  }

  lemma {:induction false} FilterDistinct<T, K>(p: T -> bool, key: T -> K, xs: seq<T>)
    requires Distinct(key, xs)
    ensures Distinct(key, Filter(p, xs))
  {
    if xs == [] {
    } else {
      FilterDistinct(p, key, xs[1..]);
      if p(xs[0]) {
        assert Filter(p, xs) == [xs[0]] + Filter(p, xs[1..]);
        forall y | y in Filter(p, xs[1..])
          ensures key(y) != key(xs[0])
        {
          FilterMember(p, xs[1..], y);
          var i :| 1 <= i < |xs| && xs[i] == y;
        }
        DistinctAppend(key, [xs[0]], Filter(p, xs[1..]));
      }
    }
  }

  lemma DistinctAppend<T, K>(key: T -> K, xs: seq<T>, ys: seq<T>)
    ensures Distinct(key, xs + ys) <==>
              Distinct(key, xs) && Distinct(key, ys) && forall x, y :: x in xs && y in ys ==> key(x) != key(y)
  {
    if Distinct(key, xs + ys) {
      forall i, j | 0 <= i < j < |xs|
        ensures key(xs[i]) != key(xs[j])
      {
        assert (xs + ys)[i] == xs[i] && (xs + ys)[j] == xs[j];
      }
      forall i, j | 0 <= i < j < |ys|
        ensures key(ys[i]) != key(ys[j])
      {
        assert (xs + ys)[|xs| + i] == ys[i] && (xs + ys)[|xs| + j] == ys[j];
      }
      forall x, y | x in xs && y in ys
        ensures key(x) != key(y)
      {
        var i :| 0 <= i < |xs| && xs[i] == x;
        var j :| 0 <= j < |ys| && ys[j] == y;
        assert (xs + ys)[i] == x && (xs + ys)[|xs| + j] == y;
      }
    }
  }

  /** Two lists without repeated keys and with the same elements are permutations of each other. */
  lemma {:induction false} SameElements<T, K>(key: T -> K, xs: seq<T>, ys: seq<T>)
    requires Distinct(key, xs) && Distinct(key, ys)
    requires forall x :: x in xs <==> x in ys
    ensures multiset(xs) == multiset(ys)
  {
    forall x
      ensures multiset(xs)[x] == multiset(ys)[x]
    {
      CountAtMostOne(key, xs, x);
      CountAtMostOne(key, ys, x);
    }
  }

  lemma {:induction false} CountAtMostOne<T, K>(key: T -> K, xs: seq<T>, x: T)
    requires Distinct(key, xs)
    ensures multiset(xs)[x] == (if x in xs then 1 else 0)
  {
    if xs == [] {
    } else {
      DistinctCons(key, xs);
      CountAtMostOne(key, xs[1..], x);
      assert xs == [xs[0]] + xs[1..];
    }
  }

  // Adding what is not there yet.

  function Insert<T, K(==)>(key: T -> K, xs: seq<T>, x: T): seq<T> {
    if HasKey(key, xs, key(x)) then xs else xs + [x]
  }

  function InsertAll<T, K(==)>(key: T -> K, xs: seq<T>, news: seq<T>): seq<T>
    decreases |news|
  {
    if news == [] then xs else InsertAll(key, Insert(key, xs, news[0]), news[1..])
  }

  lemma {:induction false} InsertAllAppend<T, K>(key: T -> K, xs: seq<T>, news: seq<T>, more: seq<T>)
    ensures InsertAll(key, xs, news + more) == InsertAll(key, InsertAll(key, xs, news), more)
    decreases |news|
  {
    if news == [] {
      assert news + more == more;
    } else {
      assert (news + more)[1..] == news[1..] + more;
      InsertAllAppend(key, Insert(key, xs, news[0]), news[1..], more);
    }
  }

  lemma {:induction false} InsertKeepsDistinct<T, K>(key: T -> K, xs: seq<T>, x: T)
    requires Distinct(key, xs)
    ensures Distinct(key, Insert(key, xs, x))
    ensures forall k :: HasKey(key, Insert(key, xs, x), k) <==> HasKey(key, xs, k) || k == key(x)
  {
    var ys := Insert(key, xs, x);
    if !HasKey(key, xs, key(x)) {
      forall k
        ensures HasKey(key, ys, k) <==> HasKey(key, xs, k) || k == key(x)
      {
        assert key(ys[|xs|]) == key(x);
        if HasKey(key, xs, k) {
          var i :| 0 <= i < |xs| && key(xs[i]) == k;
          assert key(ys[i]) == k;
        }
      }
    }
  }

  lemma {:induction false} InsertAllKeys<T, K>(key: T -> K, xs: seq<T>, news: seq<T>)
    requires Distinct(key, xs)
    ensures Distinct(key, InsertAll(key, xs, news))
    ensures forall k :: HasKey(key, InsertAll(key, xs, news), k) <==> HasKey(key, xs, k) || HasKey(key, news, k)
    decreases |news|
  {
    if news == [] {
    } else {
      var ys := Insert(key, xs, news[0]);
      InsertKeepsDistinct(key, xs, news[0]);
      InsertAllKeys(key, ys, news[1..]);
      forall k
        ensures HasKey(key, news, k) <==> k == key(news[0]) || HasKey(key, news[1..], k)
      {
        if HasKey(key, news[1..], k) {
          var i :| 0 <= i < |news[1..]| && key(news[1..][i]) == k;
          assert key(news[i + 1]) == k;
        }
        if HasKey(key, news, k) && k != key(news[0]) {
          var i :| 0 <= i < |news| && key(news[i]) == k;
          assert key(news[1..][i - 1]) == k;
        }
      }
    }
  }

  /** Among the elements whose key is not there yet, equal keys mean equal elements. */
  ghost predicate Agree<T(!new), K>(key: T -> K, xs: seq<T>, news: seq<T>) {
    forall x, y :: x in news && y in news && key(x) == key(y) && !HasKey(key, xs, key(x)) ==> x == y
  }

  lemma {:induction false} InsertAllMembers<T(!new), K>(key: T -> K, xs: seq<T>, news: seq<T>)
    requires Distinct(key, xs) && Agree(key, xs, news)
    ensures forall x :: x in InsertAll(key, xs, news) <==> x in xs || (x in news && !HasKey(key, xs, key(x)))
    decreases |news|
  {
    if news == [] {
    } else {
      var n := news[0];
      var ys := Insert(key, xs, n);
      InsertKeepsDistinct(key, xs, n);
      assert forall x :: x in news <==> x == n || x in news[1..];
      forall x, y | x in news[1..] && y in news[1..] && key(x) == key(y) && !HasKey(key, ys, key(x))
        ensures x == y
      {
        assert x in news && y in news && !HasKey(key, xs, key(x));
      }
      InsertAllMembers(key, ys, news[1..]);
      assert forall x :: x in ys <==> x in xs || (x == n && !HasKey(key, xs, key(n)));
    }
  }

  /** The first element of a key that is not there yet stays; no other element of that key gets in. */
  lemma {:induction false} FirstOneStays<T(!new), K>(key: T -> K, xs: seq<T>, x: T, news: seq<T>, y: T)
    requires Distinct(key, xs) && !HasKey(key, xs, key(x))
    requires key(y) == key(x) && y != x
    ensures x in InsertAll(key, xs, [x] + news) && y !in InsertAll(key, xs, [x] + news)
  {
    assert ([x] + news)[1..] == news;
    var ys := Insert(key, xs, x);
    InsertKeepsDistinct(key, xs, x);
    assert x in ys;
    Present(key, ys, news, x);
    InsertAllKeys(key, ys, news);
    forall z | z in InsertAll(key, ys, news) && key(z) == key(x)
      ensures z == x
    {
      UniqueKey(key, InsertAll(key, ys, news), z, x);
    }
  }

  lemma UniqueKey<T, K>(key: T -> K, xs: seq<T>, x: T, y: T)
    requires Distinct(key, xs) && x in xs && y in xs && key(x) == key(y)
    ensures x == y
  {
  }

  lemma {:induction false} Present<T, K>(key: T -> K, xs: seq<T>, news: seq<T>, x: T)
    requires x in xs
    ensures x in InsertAll(key, xs, news)
    decreases |news|
  {
    if news == [] {
    } else {
      Present(key, Insert(key, xs, news[0]), news[1..], x);
    }
  }
}
