/**
 * Python's `sorted(results, key=date, reverse=True)`: newest first, and,
 * because Python's sort is stable also when reversed, records with the same
 * date stay in their input order.
 */
module Ordering {
  import opened Orcid

  /** Dates never increase along `s`. */
  predicate NewestFirst(s: seq<FilteredWork>)
  {
    forall i, j :: 0 <= i < j < |s| ==> s[i].date >= s[j].date
  }

  /** The records of `s` dated `d`, in their order in `s`. */
  function DatedOn(s: seq<FilteredWork>, d: int): (r: seq<FilteredWork>)
    ensures |r| <= |s|
  {
    if s == [] then []
    else (if s[0].date == d then [s[0]] else []) + DatedOn(s[1..], d)
  }

  /** A record not older than the first record of a newest-first `t` can be put in front of it. */
  lemma PrependNewest(x: FilteredWork, t: seq<FilteredWork>)
    requires NewestFirst(t)
    requires t == [] || x.date >= t[0].date
    ensures NewestFirst([x] + t)
  {
    forall i, j | 0 <= i < j < |[x] + t|
      ensures ([x] + t)[i].date >= ([x] + t)[j].date
    {
      assert ([x] + t)[j] == t[j - 1];
      if i > 0 {
        assert ([x] + t)[i] == t[i - 1];
      } else {
        assert t[0].date >= t[j - 1].date;
      }
    }
  }

  /**
   * Places `w` in front of the first record of `s` that is not newer than
   * it, so that `w` precedes every record of `s` with its own date. The
   * result starts with `w` or with the first record of `s`.
   */
  function Insert(w: FilteredWork, s: seq<FilteredWork>): (r: seq<FilteredWork>)
    requires NewestFirst(s)
    ensures NewestFirst(r)
    ensures multiset(r) == multiset(s) + multiset{w}
    ensures r != [] && (r[0] == w || (s != [] && r[0] == s[0]))
  {
    if s == [] || w.date >= s[0].date then
      PrependNewest(w, s);
      [w] + s
    else
      var rest := Insert(w, s[1..]);
      assert s == [s[0]] + s[1..];
      assert s[1..] != [] ==> s[0].date >= s[1..][0].date;
      PrependNewest(s[0], rest);
      [s[0]] + rest
  }

  /** The stable newest-first sort: sorted by date, and a permutation of its input. */
  function SortNewestFirst(s: seq<FilteredWork>): (r: seq<FilteredWork>)
    ensures NewestFirst(r)
    ensures multiset(r) == multiset(s)
    ensures |r| == |s|
  {
    if s == [] then []
    else
      assert s == [s[0]] + s[1..];
      Insert(s[0], SortNewestFirst(s[1..]))
  }

  /** The records dated `d` in `[x] + t`: `x` if it carries that date, then those of `t`. */
  lemma DatedOnCons(x: FilteredWork, t: seq<FilteredWork>, d: int)
    ensures DatedOn([x] + t, d) == (if x.date == d then [x] else []) + DatedOn(t, d)
  {
    assert ([x] + t)[1..] == t;
  }

  /** Inserting `w` adds it at the front of the records dated like it, and changes no other date's records. */
  lemma {:induction false} InsertKeepsDateOrder(w: FilteredWork, s: seq<FilteredWork>, d: int)
    requires NewestFirst(s)
    ensures DatedOn(Insert(w, s), d) == (if w.date == d then [w] else []) + DatedOn(s, d)
  {
    if s == [] || w.date >= s[0].date {
      assert Insert(w, s) == [w] + s;
      DatedOnCons(w, s, d);
    } else {
      var rest := Insert(w, s[1..]);
      assert Insert(w, s) == [s[0]] + rest;
      InsertKeepsDateOrder(w, s[1..], d);
      DatedOnCons(s[0], rest, d);
      assert s == [s[0]] + s[1..];
      DatedOnCons(s[0], s[1..], d);
      if w.date == d {
        assert s[0].date != d;
        assert DatedOn(Insert(w, s), d) == DatedOn(rest, d) == [w] + DatedOn(s[1..], d);
      } else {
        assert DatedOn(rest, d) == DatedOn(s[1..], d);
      }
    }
  }

  /**
   * Stability: for every date, the records carrying it appear in the sorted
   * output in exactly the order they had in the input.
   */
  lemma {:induction false} SortIsStable(s: seq<FilteredWork>, d: int)
    ensures DatedOn(SortNewestFirst(s), d) == DatedOn(s, d)
  {
    if s != [] {
      SortIsStable(s[1..], d);
      InsertKeepsDateOrder(s[0], SortNewestFirst(s[1..]), d);
    }
  }
}
