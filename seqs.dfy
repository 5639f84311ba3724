/** Sequence utilities shared by the repositories: filtering, the ascending
    list of ids held by a table, and the ordering used by ORDER BY clauses. */
module Seqs {

  /** Elements of `s` that satisfy `p`, in their original order (a WHERE clause). */
  function Filter<T(!new)>(s: seq<T>, p: T -> bool): (r: seq<T>)
    ensures |r| <= |s|
    ensures forall x :: x in r <==> x in s && p(x)
  {
    if s == [] then []
    else if p(s[0]) then [s[0]] + Filter(s[1..], p)
    else Filter(s[1..], p)
  }

  lemma {:induction false} FilterConcat<T(!new)>(a: seq<T>, b: seq<T>, p: T -> bool)
    ensures Filter(a + b, p) == Filter(a, p) + Filter(b, p)
  {
    if a == [] {
      assert a + b == b;
    } else {
      assert (a + b)[0] == a[0];
      assert (a + b)[1..] == a[1..] + b;
      FilterConcat(a[1..], b, p);
    }
  }

  lemma {:induction false} FilterKeepsAll<T(!new)>(s: seq<T>, p: T -> bool)
    requires forall x :: x in s ==> p(x)
    ensures Filter(s, p) == s
  {
    if s != [] {
      FilterKeepsAll(s[1..], p);
    }
  }

  lemma {:induction false} FilterConjunction<T(!new)>(s: seq<T>, p: T -> bool, q: T -> bool)
    ensures Filter(Filter(s, p), q) == Filter(s, x => p(x) && q(x))
  {
    if s != [] {
      FilterConjunction(s[1..], p, q);
    }
  }

  /** Strictly increasing: the order of an identity column. */
  predicate Ascending(s: seq<int>)
  {
    forall i, j :: 0 <= i < j < |s| ==> s[i] < s[j]
  }

  lemma {:induction false} FilterAscending(s: seq<int>, p: int -> bool)
    requires Ascending(s)
    ensures Ascending(Filter(s, p))
  {
    if s != [] {
      FilterAscending(s[1..], p);
      var r := Filter(s[1..], p);
      forall k | k in r
        ensures s[0] < k
      {
        var m :| 0 <= m < |s[1..]| && s[1..][m] == k;
        assert s[1 + m] == k;
      }
      if p(s[0]) {
        forall i, j | 0 <= i < j < |r| + 1
          ensures ([s[0]] + r)[i] < ([s[0]] + r)[j]
        {
          assert r[j - 1] in r;
        }
      }
    }
  }

  /** The ids in [lo, hi) that are keys of a table, in ascending order. */
  function Ids(keys: set<int>, lo: int, hi: int): (r: seq<int>)
    decreases hi - lo
    ensures forall k :: k in r <==> k in keys && lo <= k < hi
    ensures forall i :: 0 <= i < |r| ==> lo <= r[i] < hi
    ensures Ascending(r)
  {
    if lo >= hi then []
    else if lo in keys then [lo] + Ids(keys, lo + 1, hi)
    else Ids(keys, lo + 1, hi)
  }

  predicate NoDup<T(==)>(s: seq<T>)
  {
    forall i, j :: 0 <= i < j < |s| ==> s[i] != s[j]
  }

  lemma AscendingNoDup(s: seq<int>)
    requires Ascending(s)
    ensures NoDup(s)
  {
  }

  /** Character-code lexicographic order on strings. */
  predicate StrLe(a: string, b: string)
  {
    a == [] || (b != [] && (a[0] < b[0] || (a[0] == b[0] && StrLe(a[1..], b[1..]))))
  }

  lemma {:induction false} StrLeTotal(a: string, b: string)
    ensures StrLe(a, b) || StrLe(b, a)
  {
    if a != [] && b != [] && a[0] == b[0] {
      StrLeTotal(a[1..], b[1..]);
    }
  }

  lemma {:induction false} StrLeTransitive(a: string, b: string, c: string)
    requires StrLe(a, b) && StrLe(b, c)
    ensures StrLe(a, c)
  {
    if a != [] && b != [] && c != [] && a[0] == b[0] && b[0] == c[0] {
      StrLeTransitive(a[1..], b[1..], c[1..]);
    }
  }

  /** A sort key: `rank` first (ascending), then `text`. */
  datatype SortKey = SortKey(rank: int, text: string)

  predicate KeyLe(a: SortKey, b: SortKey)
  {
    a.rank < b.rank || (a.rank == b.rank && StrLe(a.text, b.text))
  }

  lemma KeyLeTotal(a: SortKey, b: SortKey)
    ensures KeyLe(a, b) || KeyLe(b, a)
  {
    StrLeTotal(a.text, b.text);
  }

  lemma KeyLeTransitive(a: SortKey, b: SortKey, c: SortKey)
    requires KeyLe(a, b) && KeyLe(b, c)
    ensures KeyLe(a, c)
  {
    if a.rank == b.rank && b.rank == c.rank {
      StrLeTransitive(a.text, b.text, c.text);
    }
  }

  predicate SortedBy<T>(s: seq<T>, key: T -> SortKey)
  {
    forall i, j :: 0 <= i < j < |s| ==> KeyLe(key(s[i]), key(s[j]))
  }

  predicate SortedDescBy<T>(s: seq<T>, key: T -> SortKey)
  {
    forall i, j :: 0 <= i < j < |s| ==> KeyLe(key(s[j]), key(s[i]))
  }

  function InsertBy<T>(x: T, s: seq<T>, key: T -> SortKey): seq<T>
  {
    if s == [] then [x]
    else if KeyLe(key(x), key(s[0])) then [x] + s
    else [s[0]] + InsertBy(x, s[1..], key)
  }

  /** Insertion sort: the order an ORDER BY clause produces. */
  function SortBy<T>(s: seq<T>, key: T -> SortKey): seq<T>
  {
    if s == [] then [] else InsertBy(s[0], SortBy(s[1..], key), key)
  }

  function Reverse<T>(s: seq<T>): (r: seq<T>)
  {
    if s == [] then [] else Reverse(s[1..]) + [s[0]]
  }

  /** A sorted sequence stays sorted under a head no greater than any of
      its elements. */
  lemma ConsSorted<T>(h: T, r: seq<T>, key: T -> SortKey)
    requires SortedBy(r, key)
    requires forall y :: y in r ==> KeyLe(key(h), key(y))
    ensures SortedBy([h] + r, key)
  {
    forall i, j | 0 <= i < j < |r| + 1
      ensures KeyLe(key(([h] + r)[i]), key(([h] + r)[j]))
    {
      assert ([h] + r)[j] == r[j - 1];
      if i == 0 {
        assert r[j - 1] in r;
      } else {
        assert ([h] + r)[i] == r[i - 1];
      }
    }
  }

  lemma {:induction false} InsertByCorrect<T>(x: T, s: seq<T>, key: T -> SortKey)
    requires SortedBy(s, key)
    ensures SortedBy(InsertBy(x, s, key), key)
    ensures multiset(InsertBy(x, s, key)) == multiset(s) + multiset{x}
  {
    if s == [] {
    } else if KeyLe(key(x), key(s[0])) {
      forall y | y in s
        ensures KeyLe(key(x), key(y))
      {
        var j :| 0 <= j < |s| && s[j] == y;
        if j > 0 {
          KeyLeTransitive(key(x), key(s[0]), key(s[j]));
        }
      }
      ConsSorted(x, s, key);
    } else {
      var r := InsertBy(x, s[1..], key);
      InsertByCorrect(x, s[1..], key);
      assert s == [s[0]] + s[1..];
      KeyLeTotal(key(x), key(s[0]));
      forall y | y in r
        ensures KeyLe(key(s[0]), key(y))
      {
        assert y in multiset(r);
        if y != x {
          assert y in s[1..];
        }
      }
      ConsSorted(s[0], r, key);
    }
  }

  lemma {:induction false} SortByCorrect<T>(s: seq<T>, key: T -> SortKey)
    ensures SortedBy(SortBy(s, key), key)
    ensures multiset(SortBy(s, key)) == multiset(s)
  {
    if s != [] {
      SortByCorrect(s[1..], key);
      InsertByCorrect(s[0], SortBy(s[1..], key), key);
      assert s == [s[0]] + s[1..];
    }
  }

  lemma {:induction false} ReverseCorrect<T>(s: seq<T>)
    ensures |Reverse(s)| == |s|
    ensures forall i :: 0 <= i < |s| ==> Reverse(s)[i] == s[|s| - 1 - i]
  {
    if s != [] {
      ReverseCorrect(s[1..]);
    }
  }

  lemma ReverseSortedDesc<T>(s: seq<T>, key: T -> SortKey)
    requires SortedBy(s, key)
    ensures SortedDescBy(Reverse(s), key)
    ensures multiset(Reverse(s)) == multiset(s)
  {
    ReverseCorrect(s);
    ReverseMultiset(s);
  }

  lemma {:induction false} ReverseMultiset<T>(s: seq<T>)
    ensures multiset(Reverse(s)) == multiset(s)
  {
    if s != [] {
      ReverseMultiset(s[1..]);
      assert s == [s[0]] + s[1..];
    }
  }

  /** Two sequences with the same elements and multiplicities: one has
      duplicates exactly when the other does. */
  lemma {:induction false} MultisetNoDup<T>(a: seq<T>, b: seq<T>)
    requires multiset(a) == multiset(b)
    requires NoDup(a)
    ensures NoDup(b)
  {
    forall i, j | 0 <= i < j < |b|
      ensures b[i] != b[j]
    {
      if b[i] == b[j] {
        TwoPositions(b, i, j);
        assert b[i] in multiset(a);
        var k :| 0 <= k < |a| && a[k] == b[i];
        OnlyPosition(a, k);
      }
    }
  }

  lemma {:induction false} TwoPositions<T>(s: seq<T>, i: int, j: int)
    requires 0 <= i < j < |s| && s[i] == s[j]
    ensures multiset(s)[s[i]] >= 2
  {
    var x := s[i];
    assert s == s[..i] + [s[i]] + s[i + 1..j] + [s[j]] + s[j + 1..];
    assert multiset(s) == multiset(s[..i]) + multiset{x} + multiset(s[i + 1..j]) + multiset{x} + multiset(s[j + 1..]);
  }

  lemma {:induction false} OnlyPosition<T>(s: seq<T>, k: int)
    requires NoDup(s) && 0 <= k < |s|
    ensures multiset(s)[s[k]] == 1
  {
    var x := s[k];
    assert s == s[..k] + [x] + s[k + 1..];
    assert multiset(s) == multiset(s[..k]) + multiset{x} + multiset(s[k + 1..]);
  }

  /** The result of sorting a duplicate-free sequence: sorted, the same
      elements, still duplicate-free. */
  lemma SortByNoDup<T>(s: seq<T>, key: T -> SortKey)
    requires NoDup(s)
    ensures SortedBy(SortBy(s, key), key)
    ensures forall x :: x in SortBy(s, key) <==> x in s
    ensures NoDup(SortBy(s, key))
  {
    SortByCorrect(s, key);
    MultisetNoDup(s, SortBy(s, key));
    forall x
      ensures x in SortBy(s, key) <==> x in s
    {
      assert x in SortBy(s, key) <==> x in multiset(SortBy(s, key));
      assert x in s <==> x in multiset(s);
    }
  }

  lemma ReverseNoDup<T>(s: seq<T>)
    requires NoDup(s)
    ensures NoDup(Reverse(s))
    ensures forall x :: x in Reverse(s) <==> x in s
  {
    ReverseMultiset(s);
    MultisetNoDup(s, Reverse(s));
    forall x
      ensures x in Reverse(s) <==> x in s
    {
      assert x in Reverse(s) <==> x in multiset(Reverse(s));
      assert x in s <==> x in multiset(s);
    }
  }

  /** Every id of a table lies in [1, hi): `hi` is the next identity value. */
  predicate KeysBelow(keys: set<int>, hi: int)
  {
    forall k :: k in keys ==> 1 <= k < hi
  }

  /** The ids of the rows of `t` that satisfy `p`, in ascending order. */
  function Where<R(!new)>(t: map<int, R>, hi: int, p: R -> bool): (r: seq<int>)
    requires KeysBelow(t.Keys, hi)
    ensures forall id :: id in r <==> id in t && p(t[id])
    ensures Ascending(r)
  {
    var all := Ids(t.Keys, 1, hi);
    FilterAscending(all, id => id in t && p(t[id]));
    Filter(all, id => id in t && p(t[id]))
  }

  /** A result row: the identity column paired with the other columns. */
  datatype Entry<R> = Entry(id: int, row: R)

  function Entries<R>(ids: seq<int>, t: map<int, R>): (r: seq<Entry<R>>)
    requires forall i :: 0 <= i < |ids| ==> ids[i] in t
    ensures |r| == |ids|
    ensures forall i :: 0 <= i < |ids| ==> r[i] == Entry(ids[i], t[ids[i]])
  {
    if ids == [] then [] else [Entry(ids[0], t[ids[0]])] + Entries(ids[1..], t)
  }

  lemma EntriesMembership<R(!new)>(ids: seq<int>, t: map<int, R>)
    requires forall i :: 0 <= i < |ids| ==> ids[i] in t
    ensures forall e :: e in Entries(ids, t) <==> e.id in ids && e.id in t && e.row == t[e.id]
  {
    var r := Entries(ids, t);
    forall e | e in r
      ensures e.id in ids
    {
      var i :| 0 <= i < |r| && r[i] == e;
    }
    forall e: Entry<R> | e.id in ids && e.id in t && e.row == t[e.id]
      ensures e in r
    {
      var i :| 0 <= i < |ids| && ids[i] == e.id;
      assert r[i] == e;
    }
  }

  /** `SELECT * ... WHERE p` without ORDER BY, read in identity order. */
  function Select<R(==,!new)>(t: map<int, R>, hi: int, p: R -> bool): (r: seq<Entry<R>>)
    requires KeysBelow(t.Keys, hi)
    ensures forall e :: e in r <==> e.id in t && p(t[e.id]) && e.row == t[e.id]
    ensures forall i, j :: 0 <= i < j < |r| ==> r[i].id < r[j].id
    ensures NoDup(r)
  {
    var ids := Where(t, hi, p);
    assert forall i :: 0 <= i < |ids| ==> ids[i] in ids;
    EntriesMembership(ids, t);
    Entries(ids, t)
  }

  /** `SELECT * ... WHERE p ORDER BY key`, ties kept in identity order. */
  function SelectOrdered<R(==,!new)>(t: map<int, R>, hi: int, p: R -> bool, key: Entry<R> -> SortKey): (r: seq<Entry<R>>)
    requires KeysBelow(t.Keys, hi)
    ensures forall e :: e in r <==> e.id in t && p(t[e.id]) && e.row == t[e.id]
    ensures SortedBy(r, key)
    ensures NoDup(r)
  {
    var s := Select(t, hi, p);
    SortByNoDup(s, key);
    SortBy(s, key)
  }

  /** In a sequence ordered by id, the first and the last row hold its
      smallest and its largest id. */
  lemma IdsBetween<R>(s: seq<Entry<R>>, i: int)
    requires forall i, j :: 0 <= i < j < |s| ==> s[i].id < s[j].id
    requires 0 <= i < |s|
    ensures s[0].id <= s[i].id <= s[|s| - 1].id
  {
    assert i == 0 || s[0].id < s[i].id;
    assert i == |s| - 1 || s[i].id < s[|s| - 1].id;
  }

  /** The first and the last row of a selection hold its smallest and its
      largest id. */
  lemma SelectBounds<R(!new)>(t: map<int, R>, hi: int, p: R -> bool)
    requires KeysBelow(t.Keys, hi)
    ensures var s := Select(t, hi, p);
      s != [] ==> forall k :: k in t && p(t[k]) ==> s[0].id <= k <= s[|s| - 1].id
  {
    var s := Select(t, hi, p);
    forall k | k in t && p(t[k]) && s != []
      ensures s[0].id <= k <= s[|s| - 1].id
    {
      assert Entry(k, t[k]) in s;
      var i :| 0 <= i < |s| && s[i] == Entry(k, t[k]);
      IdsBetween(s, i);
    }
  }
}
