/**
 * How a run of `main` lays out its posts and requests over the configured
 * ids, for any way of announcing one id: the loop state before each id, the
 * step that moves it on, and what the run promises when it stops.
 */
module Schedule {
  import opened Orcid

  /** How the run ended: normally, or by the works request for `failedId` raising. */
  datatype Outcome = Finished | Aborted(failedId: string)

  /**
   * What a run did: the texts posted, in order; the ids whose person record
   * was requested; the ids whose works were requested; and how it ended.
   */
  datatype RunReport = RunReport(
    posts: seq<string>,
    nameLookups: seq<string>,
    worksFetches: seq<string>,
    outcome: Outcome)

  /** The announcements for `ids`, one id after the other, in configured order. */
  function Stream(ids: seq<string>, announce: string -> seq<string>): seq<string>
  {
    if ids == [] then []
    else Stream(ids[..|ids| - 1], announce) + announce(ids[|ids| - 1])
  }

  /** The position of the first id whose works request fails, or the number of ids. */
  function FirstUnfetchable(ids: seq<string>, works: map<string, seq<Group>>): (k: nat)
    ensures k <= |ids|
    ensures forall j :: 0 <= j < k ==> ids[j] in works
    ensures k < |ids| ==> ids[k] !in works
  {
    if ids == [] || ids[0] !in works then 0
    else 1 + FirstUnfetchable(ids[1..], works)
  }

  /** The first `n` elements of `s`, or all of them. */
  function Take<T>(s: seq<T>, n: nat): seq<T>
  {
    if |s| <= n then s else s[..n]
  }

  /** `s` without repetitions, each element at its first occurrence. */
  function Dedup<T(==)>(s: seq<T>): seq<T>
  {
    if s == [] then []
    else
      var init := s[..|s| - 1];
      Dedup(init) + (if s[|s| - 1] in init then [] else [s[|s| - 1]])
  }

  /** Removing repetitions keeps exactly the elements of `s`, once each. */
  lemma {:induction false} DedupDistinct<T>(s: seq<T>)
    ensures forall x :: x in Dedup(s) <==> x in s
    ensures forall i, j :: 0 <= i < j < |Dedup(s)| ==> Dedup(s)[i] != Dedup(s)[j]
  {
    if s != [] {
      var init := s[..|s| - 1];
      DedupDistinct(init);
      assert s == init + [s[|s| - 1]];
    }
  }

  /** Announcements come out id by id: a shorter id prefix yields a prefix of the stream. */
  lemma {:induction false} StreamPrefix(ids: seq<string>, announce: string -> seq<string>, i: nat)
    requires i <= |ids|
    ensures Stream(ids[..i], announce) <= Stream(ids, announce)
  {
    if i < |ids| {
      var init := ids[..|ids| - 1];
      assert init[..i] == ids[..i];
      StreamPrefix(init, announce, i);
    } else {
      assert ids[..i] == ids;
    }
  }

  /** One more id adds its announcements at the end of the stream. */
  lemma StreamStep(ids: seq<string>, announce: string -> seq<string>, i: nat)
    requires i < |ids|
    ensures Stream(ids[..i + 1], announce) == Stream(ids[..i], announce) + announce(ids[i])
  {
    assert ids[..i + 1][..i] == ids[..i];
  }

  /** A prefix one element longer is the prefix followed by that element. */
  lemma PrefixStep<T>(s: seq<T>, j: nat)
    requires j < |s|
    ensures s[..j + 1] == s[..j] + [s[j]]
  {
  }

  /** One more id is added to the deduplicated prefix exactly when it is new. */
  lemma DedupStep<T>(s: seq<T>, i: nat)
    requires i < |s|
    ensures Dedup(s[..i + 1]) == Dedup(s[..i]) + (if s[i] in s[..i] then [] else [s[i]])
  {
    assert s[..i + 1][..i] == s[..i];
  }

  /** Taking `n` from a sequence with at least `n` elements is taking them from any extension of it. */
  lemma TakeOfLonger<T>(a: seq<T>, b: seq<T>, n: nat)
    requires a <= b && n <= |a|
    ensures |Take(a, n)| == n && Take(a, n) == Take(b, n)
  {
    assert a[..n] == b[..n];
  }

  /** Taking from a sequence whose first part is under the bound keeps that part whole. */
  lemma TakeAfterShort<T>(a: seq<T>, b: seq<T>, n: nat)
    requires |a| < n
    ensures Take(a + b, n) == a + Take(b, n - |a|)
  {
    if |a + b| > n {
      assert (a + b)[..n] == a + b[..n - |a|];
    }
  }

  /**
   * What a run promises, with `k` the first id whose works request fails and
   * `all` the announcements of the ids before it.
   * Posts: the run posts the first `budget` of `all`; it aborts at id `k`
   * exactly when it reaches that id with budget left, having posted all of
   * `all`.
   * Requests: works are requested for a prefix of the ids, the last of them
   * reached with budget left; an aborted run requested up to and including
   * the failing id, and a finished run stopped early only when the
   * announcements of the ids it visited filled the budget; the person record
   * is requested once per distinct id among them, at its first occurrence.
   */
  ghost predicate RunOutcome(ids: seq<string>, works: map<string, seq<Group>>,
                             announce: string -> seq<string>, budget: nat, report: RunReport)
  {
    var k := FirstUnfetchable(ids, works);
    var all := Stream(ids[..k], announce);
    var fetched := report.worksFetches;
    && |report.posts| <= budget
    && (report.outcome.Aborted? <==> k < |ids| && |all| < budget)
    && (report.outcome.Aborted? ==> report.outcome.failedId == ids[k] && report.posts == all)
    && (report.outcome.Finished? ==> report.posts == Take(all, budget))
    && |fetched| <= |ids| && fetched == ids[..|fetched|]
    && |fetched| <= k + 1
    && (0 < |fetched| ==> |Stream(ids[..|fetched| - 1], announce)| < budget)
    && (report.outcome.Aborted? ==> |fetched| == k + 1)
    && (report.outcome.Finished? ==> |fetched| == |ids| || |Stream(ids[..|fetched|], announce)| >= budget)
    && report.nameLookups == Dedup(fetched)
  }

  /**
   * The state of `main` before the pass for `ids[i]`: every id before it was
   * fetched successfully, the posts are the budget's share of their
   * announcements, the last of them was reached with budget left, and the
   * name cache holds exactly their names.
   */
  ghost predicate Progress(ids: seq<string>, works: map<string, seq<Group>>,
                           announce: string -> seq<string>, nameOf: string -> string, budget: nat,
                           i: nat, posts: seq<string>, fetches: seq<string>, lookups: seq<string>,
                           nameCache: map<string, string>)
  {
    && i <= FirstUnfetchable(ids, works)
    && posts == Take(Stream(ids[..i], announce), budget)
    && (0 < i ==> |Stream(ids[..i - 1], announce)| < budget)
    && fetches == ids[..i]
    && lookups == Dedup(ids[..i])
    && (forall x :: x in nameCache <==> x in ids[..i])
    && (forall x :: x in nameCache ==> nameCache[x] == nameOf(x))
  }

  /** Nothing has happened before the first pass. */
  lemma ProgressStart(ids: seq<string>, works: map<string, seq<Group>>,
                      announce: string -> seq<string>, nameOf: string -> string, budget: nat)
    ensures Progress(ids, works, announce, nameOf, budget, 0, [], [], [], map[])
  {
    assert ids[..0] == [];
  }

  /** A pass for an id whose works request succeeds moves the state on to the next id. */
  lemma ProgressStep(ids: seq<string>, works: map<string, seq<Group>>,
                     announce: string -> seq<string>, nameOf: string -> string, budget: nat,
                     i: nat, posts: seq<string>, fetches: seq<string>, lookups: seq<string>,
                     nameCache: map<string, string>,
                     posts': seq<string>, lookups': seq<string>, nameCache': map<string, string>)
    requires Progress(ids, works, announce, nameOf, budget, i, posts, fetches, lookups, nameCache)
    requires i < |ids| && |posts| < budget && ids[i] in works
    requires nameCache' == nameCache[ids[i] := nameOf(ids[i])]
    requires lookups' == if ids[i] in nameCache then lookups else lookups + [ids[i]]
    requires posts' == posts + Take(announce(ids[i]), budget - |posts|)
    ensures Progress(ids, works, announce, nameOf, budget, i + 1, posts', fetches + [ids[i]], lookups', nameCache')
  {
    var k := FirstUnfetchable(ids, works);
    assert i < k by {
      assert k < |ids| ==> ids[k] !in works;
    }
    var before := Stream(ids[..i], announce);
    assert |before| < budget && posts == before;
    PrefixStep(ids, i);
    DedupStep(ids, i);
    StreamStep(ids, announce, i);
    TakeAfterShort(before, announce(ids[i]), budget);
    assert ids[..i + 1][..i] == ids[..i];
  }

  /** When the budget check stops the loop, the run has done what it promises. */
  lemma BudgetSpent(ids: seq<string>, works: map<string, seq<Group>>,
                    announce: string -> seq<string>, nameOf: string -> string, budget: nat,
                    i: nat, posts: seq<string>, fetches: seq<string>, lookups: seq<string>,
                    nameCache: map<string, string>)
    requires Progress(ids, works, announce, nameOf, budget, i, posts, fetches, lookups, nameCache)
    requires i <= |ids| && |posts| >= budget
    ensures RunOutcome(ids, works, announce, budget, RunReport(posts, lookups, fetches, Finished))
  {
    var k := FirstUnfetchable(ids, works);
    var now := Stream(ids[..i], announce);
    StreamPrefix(ids[..k], announce, i);
    assert ids[..k][..i] == ids[..i];
    TakeOfLonger(now, Stream(ids[..k], announce), budget);
  }

  /** When every id has been visited, the run has done what it promises. */
  lemma AllVisited(ids: seq<string>, works: map<string, seq<Group>>,
                   announce: string -> seq<string>, nameOf: string -> string, budget: nat,
                   posts: seq<string>, fetches: seq<string>, lookups: seq<string>,
                   nameCache: map<string, string>)
    requires Progress(ids, works, announce, nameOf, budget, |ids|, posts, fetches, lookups, nameCache)
    ensures RunOutcome(ids, works, announce, budget, RunReport(posts, lookups, fetches, Finished))
  {
    assert ids[..|ids|] == ids;
  }

  /** When the works request for `ids[i]` fails, the run has done what it promises. */
  lemma FetchFailed(ids: seq<string>, works: map<string, seq<Group>>,
                    announce: string -> seq<string>, nameOf: string -> string, budget: nat,
                    i: nat, posts: seq<string>, fetches: seq<string>, lookups: seq<string>,
                    nameCache: map<string, string>, lookups': seq<string>)
    requires Progress(ids, works, announce, nameOf, budget, i, posts, fetches, lookups, nameCache)
    requires i < |ids| && |posts| < budget && ids[i] !in works
    requires lookups' == if ids[i] in nameCache then lookups else lookups + [ids[i]]
    ensures RunOutcome(ids, works, announce, budget,
                       RunReport(posts, lookups', fetches + [ids[i]], Aborted(ids[i])))
  {
    assert i == FirstUnfetchable(ids, works);
    PrefixStep(ids, i);
    DedupStep(ids, i);
  }
}
