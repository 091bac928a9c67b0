/**
  The stable descending sort that ranks ASHA trials by paired delta and budget arms by
  bandit score: Python's `sorted(..., reverse=True)`, which keeps the input order of equal keys.
  */
module StableSort {

  datatype Keyed<+T> = Keyed(key: real, item: T)

  function Insert<T>(x: Keyed<T>, ys: seq<Keyed<T>>): (r: seq<Keyed<T>>)
    ensures |r| == |ys| + 1
  {
    if ys == [] || ys[0].key <= x.key then [x] + ys
    else [ys[0]] + Insert(x, ys[1..])
  }

  function SortDesc<T>(xs: seq<Keyed<T>>): (r: seq<Keyed<T>>)
    ensures |r| == |xs|
  {
    if xs == [] then [] else Insert(xs[0], SortDesc(xs[1..]))
  }

  ghost predicate Descending<T>(xs: seq<Keyed<T>>) {
    forall i, j :: 0 <= i < j < |xs| ==> xs[j].key <= xs[i].key
  }

  /** The entries of xs whose key is k, in order. */
  ghost function WithKey<T>(xs: seq<Keyed<T>>, k: real): seq<Keyed<T>> {
    if xs == [] then []
    else (if xs[0].key == k then [xs[0]] else []) + WithKey(xs[1..], k)
  }

  lemma {:induction false} InsertKeeps<T>(x: Keyed<T>, ys: seq<Keyed<T>>)
    ensures multiset(Insert(x, ys)) == multiset([x] + ys)
  {
    if ys == [] || ys[0].key <= x.key {
    } else {
      InsertKeeps(x, ys[1..]);
      assert ys == [ys[0]] + ys[1..];
    }
  }

  lemma {:induction false} InsertDescends<T>(x: Keyed<T>, ys: seq<Keyed<T>>)
    requires Descending(ys)
    ensures Descending(Insert(x, ys))
  {
    if ys == [] || ys[0].key <= x.key {
    } else {
      InsertDescends(x, ys[1..]);
      InsertKeeps(x, ys[1..]);
      var rest := Insert(x, ys[1..]);
      forall j | 0 <= j < |rest| ensures rest[j].key <= ys[0].key {
        assert rest[j] in multiset([x] + ys[1..]);
      }
    }
  }

  lemma WithKeyCons<T>(x: Keyed<T>, ys: seq<Keyed<T>>, k: real)
    ensures WithKey([x] + ys, k) == (if x.key == k then [x] else []) + WithKey(ys, k)
  {
    assert ([x] + ys)[1..] == ys;
  }

  lemma {:induction false} InsertStable<T>(x: Keyed<T>, ys: seq<Keyed<T>>, k: real)
    requires Descending(ys)
    ensures WithKey(Insert(x, ys), k) == (if x.key == k then [x] else []) + WithKey(ys, k)
  {
    if ys == [] || ys[0].key <= x.key {
      WithKeyCons(x, ys, k);
    } else {
      InsertStable(x, ys[1..], k);
      WithKeyCons(ys[0], Insert(x, ys[1..]), k);
    }
  }

  /** The sort permutes, orders by descending key, and keeps the input order inside every key. */
  lemma {:induction false} SortDescCorrect<T>(xs: seq<Keyed<T>>)
    ensures multiset(SortDesc(xs)) == multiset(xs)
    ensures Descending(SortDesc(xs))
    ensures forall k :: WithKey(SortDesc(xs), k) == WithKey(xs, k)
  {
    if xs != [] {
      SortDescCorrect(xs[1..]);
      InsertKeeps(xs[0], SortDesc(xs[1..]));
      InsertDescends(xs[0], SortDesc(xs[1..]));
      assert xs == [xs[0]] + xs[1..];
      forall k ensures WithKey(SortDesc(xs), k) == WithKey(xs, k) {
        InsertStable(xs[0], SortDesc(xs[1..]), k);
      }
    }
  }

  /** a is ranked ahead of b: a larger key, or the same key and an earlier registration. */
  ghost predicate Beats(a: Keyed<nat>, b: Keyed<nat>) {
    b.key < a.key || (a.key == b.key && a.item < b.item)
  }

  ghost predicate Ascending(xs: seq<Keyed<nat>>) {
    forall i, j :: 0 <= i < j < |xs| ==> xs[i].item < xs[j].item
  }

  ghost predicate StrictlyRanked(xs: seq<Keyed<nat>>) {
    forall i, j :: 0 <= i < j < |xs| ==> Beats(xs[i], xs[j])
  }

  lemma {:induction false} InsertRanked(x: Keyed<nat>, ys: seq<Keyed<nat>>)
    requires StrictlyRanked(ys)
    requires forall j :: 0 <= j < |ys| ==> x.item < ys[j].item
    ensures StrictlyRanked(Insert(x, ys))
  {
    if ys == [] || ys[0].key <= x.key {
      forall j | 0 <= j < |ys| ensures Beats(x, ys[j]) {
        assert j > 0 ==> Beats(ys[0], ys[j]);
      }
    } else {
      InsertRanked(x, ys[1..]);
      InsertKeeps(x, ys[1..]);
      var rest := Insert(x, ys[1..]);
      forall j | 0 <= j < |rest| ensures Beats(ys[0], rest[j]) {
        assert rest[j] in multiset(rest);
        if rest[j] != x {
          assert rest[j] in ys[1..];
        }
      }
    }
  }

  /** Entries listed by registration come out strictly ranked: ties go to the earlier registration. */
  lemma {:induction false} SortDescRanks(xs: seq<Keyed<nat>>)
    requires Ascending(xs)
    ensures StrictlyRanked(SortDesc(xs))
  {
    if xs != [] {
      SortDescRanks(xs[1..]);
      SortDescCorrect(xs[1..]);
      var rest := SortDesc(xs[1..]);
      forall j | 0 <= j < |rest| ensures xs[0].item < rest[j].item {
        assert rest[j] in multiset(rest);
        assert rest[j] in xs[1..];
      }
      InsertRanked(xs[0], rest);
    }
  }

  // Rank by counting

  ghost function Elements<T>(xs: seq<T>): set<T> {
    set x | x in xs
  }

  /** The entries of xs ranked ahead of c. */
  ghost function Rivals(xs: seq<Keyed<nat>>, c: Keyed<nat>): set<Keyed<nat>> {
    set x | x in xs && Beats(x, c)
  }

  lemma {:induction false} RankedElements(xs: seq<Keyed<nat>>)
    requires StrictlyRanked(xs)
    ensures |Elements(xs)| == |xs|
  {
    if xs != [] {
      var front, last := xs[..|xs| - 1], xs[|xs| - 1];
      RankedElements(front);
      assert xs == front + [last];
      assert last !in front by {
        forall i | 0 <= i < |front| ensures front[i] != last {
          assert Beats(xs[i], xs[|xs| - 1]);
        }
      }
      assert Elements(xs) == Elements(front) + {last};
    }
  }

  /** In a ranked list the entry at p has exactly the p entries before it as rivals. */
  lemma PositionIsRank(xs: seq<Keyed<nat>>, p: nat)
    requires StrictlyRanked(xs) && p < |xs|
    ensures |Rivals(xs, xs[p])| == p
  {
    RankedElements(xs[..p]);
    forall x ensures x in Rivals(xs, xs[p]) <==> x in Elements(xs[..p]) {
      if x in xs[..p] {
        var q :| 0 <= q < p && xs[..p][q] == x;
        assert Beats(xs[q], xs[p]);
      }
      if x in Rivals(xs, xs[p]) {
        var q :| 0 <= q < |xs| && xs[q] == x;
        assert q > p ==> Beats(xs[p], xs[q]);
        assert xs[..p][q] == x;
      }
    }
    assert Rivals(xs, xs[p]) == Elements(xs[..p]);
  }

  /** Cutting the sorted list at n keeps exactly the entries with fewer than n rivals. */
  lemma CutKeepsBest(xs: seq<Keyed<nat>>, c: Keyed<nat>, n: nat)
    requires Ascending(xs) && n <= |xs|
    ensures c in SortDesc(xs)[..n] <==> c in xs && |Rivals(xs, c)| < n
  {
    hide SortDesc;
    var r := SortDesc(xs);
    SortDescRanks(xs);
    SortDescCorrect(xs);
    forall x ensures x in xs <==> x in r {
      assert x in xs <==> x in multiset(xs);
      assert x in r <==> x in multiset(r);
    }
    assert Rivals(xs, c) == Rivals(r, c);
    if c in xs {
      var p :| 0 <= p < |r| && r[p] == c;
      PositionIsRank(r, p);
      if p < n {
        assert r[..n][p] == c;
      } else {
        forall q | 0 <= q < n ensures r[..n][q] != c {
          assert Beats(r[q], r[p]);
        }
      }
    } else {
      assert forall x <- r[..n] :: x in r;
    }
  }

  /** Sorting entries that are already in descending order changes nothing. */
  lemma {:induction false} SortDescOfSorted<T>(xs: seq<Keyed<T>>)
    requires Descending(xs)
    ensures SortDesc(xs) == xs
  {
    if xs != [] {
      SortDescOfSorted(xs[1..]);
      assert xs == [xs[0]] + xs[1..];
    }
  }
}
