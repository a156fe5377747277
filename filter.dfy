/**
 * `filter_recent`: walks the work groups of one ORCID record, keeps the work
 * summaries modified at or after a cutoff, turns each into a
 * `FilteredWork` (title, DOI link, date) and returns them newest first.
 */
module Filter {
  import opened Wrappers
  import opened Text
  import opened Orcid
  import opened Ordering

  /** The title used when a summary carries no usable one. */
  const NoTitle := "(no title)"
  /** The DOI resolver a DOI value is appended to. */
  const DoiResolver := "https://doi.org/"
  const MillisPerDay := 86400000

  /** The oldest last-modified time, in milliseconds, that a `days`-day window starting at `nowMs` accepts. */
  function Cutoff(nowMs: int, days: int): int
  {
    nowMs - days * MillisPerDay
  }

  /**
   * The title of a summary. An object yields its `value` (the placeholder
   * when it has none); a string is taken verbatim unless it is empty, since
   * an empty string is falsy and is replaced by an empty object; anything
   * else yields the placeholder.
   */
  function TitleOf(t: TitleValue): (r: string)
    ensures r == NoTitle || (t.TitleText? && r == t.text) || (t.TitleRecord? && t.value == Some(r))
    ensures t.TitleText? && t.text != "" ==> r == t.text
    ensures t.TitleRecord? && t.value.Some? ==> r == t.value.value
    ensures r == "" ==> t == TitleRecord(Some(""))
  {
    match t
    case TitleText(s) => if s == "" then NoTitle else s
    case TitleRecord(v) => v.GetOr(NoTitle)
    case TitleOther => NoTitle
  }

  /** The entry's type, lower-cased, is "doi"; a missing type counts as "". */
  predicate IsDoiType(e: ExternalId)
  {
    Lower(e.idType.GetOr("")) == "doi"
  }

  /** The type names the case-insensitive test accepts are the eight spellings of "doi". */
  lemma DoiSpellings(e: ExternalId)
    ensures IsDoiType(e) <==>
              var t := e.idType.GetOr("");
              && |t| == 3
              && (t[0] == 'd' || t[0] == 'D')
              && (t[1] == 'o' || t[1] == 'O')
              && (t[2] == 'i' || t[2] == 'I')
  {
    var t := e.idType.GetOr("");
    if |Lower(t)| == 3 {
      assert Lower(t)[0] == LowerChar(t[0]) && Lower(t)[1] == LowerChar(t[1]) && Lower(t)[2] == LowerChar(t[2]);
    }
  }

  /** A DOI entry whose value is present and non-empty. */
  predicate UsableDoi(e: ExternalId)
  {
    IsDoiType(e) && e.value.Some? && e.value.value != ""
  }

  /** `ids[i]` is the first usable DOI entry of `ids`. */
  predicate FirstUsable(ids: seq<ExternalId>, i: int)
  {
    0 <= i < |ids| && UsableDoi(ids[i]) && forall j :: 0 <= j < i ==> !UsableDoi(ids[j])
  }

  /**
   * The DOI link of a summary: the resolver followed by the value of the
   * FIRST usable DOI entry; `None` when there is no usable entry. DOI entries
   * without a value are passed over, and later DOIs are ignored.
   */
  function DoiUrl(ids: seq<ExternalId>): (r: Option<string>)
    ensures r.Some? <==> exists i :: 0 <= i < |ids| && UsableDoi(ids[i])
    ensures forall i :: FirstUsable(ids, i) ==> r == Some(DoiResolver + ids[i].value.value)
    ensures r.Some? ==> |r.value| > |DoiResolver| && r.value[..|DoiResolver|] == DoiResolver
  {
    if ids == [] then None
    else if UsableDoi(ids[0]) then Some(DoiResolver + ids[0].value.value)
    else
      var r := DoiUrl(ids[1..]);
      assert forall i :: 1 <= i < |ids| ==> ids[i] == ids[1..][i - 1];
      assert forall i :: FirstUsable(ids, i) ==> i > 0 && FirstUsable(ids[1..], i - 1);
      r
  }

  /** The DOI scan of `filter_recent`: a loop over the entries that stops at the first usable DOI. */
  method FirstDoiUrl(ids: seq<ExternalId>) returns (url: Option<string>)
    ensures url == DoiUrl(ids)
  {
    url := None;
    var i := 0;
    while i < |ids|
      invariant 0 <= i <= |ids|
      invariant DoiUrl(ids[i..]) == DoiUrl(ids)
    {
      var ext := ids[i];
      assert ids[i..][0] == ext && ids[i..][1..] == ids[i + 1..];
      if Lower(ext.idType.GetOr("")) == "doi" {
        var val := ext.value;
        if val.Some? && val.value != "" {
          url := Some(DoiResolver + val.value);
          break;
        }
      }
      i := i + 1;
    }
  }

  /** The summary passes the recency test: its last-modified value is present, non-zero, and not before the cutoff. */
  predicate Keep(ws: WorkSummary, cutoff: int)
  {
    ws.lastModified.Some? && ws.lastModified.value != 0 && ws.lastModified.value >= cutoff
  }

  /**
   * With the cutoff of a `days`-day window, a summary is kept exactly when
   * its last-modified time is present, non-zero, and at most `days` days
   * before `nowMs`.
   */
  lemma KeepIsRecent(ws: WorkSummary, nowMs: int, days: int)
    ensures Keep(ws, Cutoff(nowMs, days)) <==>
              ws.lastModified.Some? && ws.lastModified.value != 0 && nowMs - ws.lastModified.value <= days * MillisPerDay
  {
  }

  /** The record emitted for a kept summary. */
  function Normalize(ws: WorkSummary): FilteredWork
    requires ws.lastModified.Some?
  {
    FilteredWork(TitleOf(ws.title), DoiUrl(ws.externalIds), ws.lastModified.value)
  }

  /** The records of the kept summaries of `ss`, in their order. */
  function Kept(ss: seq<WorkSummary>, cutoff: int): seq<FilteredWork>
  {
    if ss == [] then []
    else
      var last := ss[|ss| - 1];
      Kept(ss[..|ss| - 1], cutoff) + (if Keep(last, cutoff) then [Normalize(last)] else [])
  }

  /** The records the nested loop of `filter_recent` collects, before sorting. */
  function Collect(groups: seq<Group>, cutoff: int): seq<FilteredWork>
  {
    if groups == [] then []
    else Collect(groups[..|groups| - 1], cutoff) + Kept(groups[|groups| - 1].summaries, cutoff)
  }

  /** All work summaries of all groups, in order. */
  function Summaries(groups: seq<Group>): seq<WorkSummary>
  {
    if groups == [] then []
    else Summaries(groups[..|groups| - 1]) + groups[|groups| - 1].summaries
  }

  /** What `filter_recent(groups, days)` returns when the clock reads `nowMs`. */
  function RecentWorks(groups: seq<Group>, nowMs: int, days: int): seq<FilteredWork>
  {
    SortNewestFirst(Collect(groups, Cutoff(nowMs, days)))
  }

  /**
   * `filter_recent`: two nested loops append the record of every kept summary,
   * then the records are sorted newest first. The result is newest first and
   * every record in it is dated within the window.
   */
  method FilterRecent(groups: seq<Group>, nowMs: int, days: int) returns (items: seq<FilteredWork>)
    ensures items == RecentWorks(groups, nowMs, days)
    ensures NewestFirst(items)
    ensures forall k :: 0 <= k < |items| ==> items[k].date >= Cutoff(nowMs, days) && items[k].date != 0
  {
    var cutoff := Cutoff(nowMs, days);
    var results: seq<FilteredWork> := [];
    for g := 0 to |groups|
      invariant results == Collect(groups[..g], cutoff)
    {
      var ss := groups[g].summaries;
      for k := 0 to |ss|
        invariant results == Collect(groups[..g], cutoff) + Kept(ss[..k], cutoff)
      {
        var ws := ss[k];
        assert ss[..k + 1][..k] == ss[..k];
        var ts := ws.lastModified;
        if ts.None? || ts.value == 0 {
          continue;
        }
        if ts.value < cutoff {
          continue;
        }
        var title := TitleOf(ws.title);
        var url := FirstDoiUrl(ws.externalIds);
        results := results + [FilteredWork(title, url, ts.value)];
      }
      assert ss[..|ss|] == ss;
      assert groups[..g + 1][..g] == groups[..g];
    }
    assert groups[..|groups|] == groups;
    items := SortNewestFirst(results);
    RecentWorksDated(groups, nowMs, days);
  }

  /** Selecting from a concatenation selects from each part. */
  lemma {:induction false} KeptAppend(a: seq<WorkSummary>, b: seq<WorkSummary>, cutoff: int)
    ensures Kept(a + b, cutoff) == Kept(a, cutoff) + Kept(b, cutoff)
  {
    if b != [] {
      var last := b[|b| - 1];
      assert (a + b)[..|a + b| - 1] == a + b[..|b| - 1];
      KeptAppend(a, b[..|b| - 1], cutoff);
    } else {
      assert a + b == a;
    }
  }

  /** Collecting group by group is selecting from all summaries at once. */
  lemma {:induction false} CollectIsKept(groups: seq<Group>, cutoff: int)
    ensures Collect(groups, cutoff) == Kept(Summaries(groups), cutoff)
  {
    if groups != [] {
      CollectIsKept(groups[..|groups| - 1], cutoff);
      KeptAppend(Summaries(groups[..|groups| - 1]), groups[|groups| - 1].summaries, cutoff);
    }
  }

  /**
   * The selection is exact: every selected record is the record of a kept
   * summary, and every kept summary's record is selected.
   */
  lemma {:induction false} KeptExactly(ss: seq<WorkSummary>, cutoff: int)
    ensures forall w :: w in Kept(ss, cutoff) ==>
              exists i :: 0 <= i < |ss| && Keep(ss[i], cutoff) && w == Normalize(ss[i])
    ensures forall i :: 0 <= i < |ss| && Keep(ss[i], cutoff) ==> Normalize(ss[i]) in Kept(ss, cutoff)
  {
    if ss != [] {
      var init := ss[..|ss| - 1];
      KeptExactly(init, cutoff);
      forall i | 0 <= i < |init|
        ensures ss[i] == init[i]
      {
      }
    }
  }

  /** Every selected record is dated within the window and not zero. */
  lemma {:induction false} KeptDated(ss: seq<WorkSummary>, cutoff: int)
    ensures forall w :: w in Kept(ss, cutoff) ==> w.date >= cutoff && w.date != 0
  {
    KeptExactly(ss, cutoff);
  }

  /** The records `filter_recent` returns are newest first and all dated within the window. */
  lemma RecentWorksDated(groups: seq<Group>, nowMs: int, days: int)
    ensures NewestFirst(RecentWorks(groups, nowMs, days))
    ensures forall k :: 0 <= k < |RecentWorks(groups, nowMs, days)| ==>
              RecentWorks(groups, nowMs, days)[k].date >= Cutoff(nowMs, days)
              && RecentWorks(groups, nowMs, days)[k].date != 0
  {
    var cutoff := Cutoff(nowMs, days);
    var r := RecentWorks(groups, nowMs, days);
    CollectIsKept(groups, cutoff);
    KeptDated(Summaries(groups), cutoff);
    forall k | 0 <= k < |r|
      ensures r[k] in Collect(groups, cutoff)
    {
      assert r[k] in multiset(r);
    }
  }

  /**
   * The membership property of `filter_recent`: a record is in the result
   * exactly when it is the record of a summary whose last-modified value is
   * present, non-zero and at or after the cutoff (the cutoff itself is
   * kept); the result is newest first, holds each kept summary's record as
   * often as the selection does, and keeps records of equal date in input order.
   */
  lemma RecentWorksSpec(groups: seq<Group>, nowMs: int, days: int)
    ensures var all := Summaries(groups);
            var r := RecentWorks(groups, nowMs, days);
            && (forall w :: w in r ==>
                  exists i :: 0 <= i < |all| && Keep(all[i], Cutoff(nowMs, days)) && w == Normalize(all[i]))
            && (forall i :: 0 <= i < |all| && Keep(all[i], Cutoff(nowMs, days)) ==> Normalize(all[i]) in r)
            && NewestFirst(r)
            && multiset(r) == multiset(Kept(all, Cutoff(nowMs, days)))
            && (forall d :: DatedOn(r, d) == DatedOn(Kept(all, Cutoff(nowMs, days)), d))
  {
    var cutoff := Cutoff(nowMs, days);
    var all := Summaries(groups);
    var r := RecentWorks(groups, nowMs, days);
    CollectIsKept(groups, cutoff);
    KeptExactly(all, cutoff);
    forall w | w in r
      ensures w in Kept(all, cutoff)
    {
      assert w in multiset(r);
    }
    forall i | 0 <= i < |all| && Keep(all[i], cutoff)
      ensures Normalize(all[i]) in r
    {
      assert Normalize(all[i]) in multiset(Kept(all, cutoff));
    }
    forall d
      ensures DatedOn(r, d) == DatedOn(Kept(all, cutoff), d)
    {
      SortIsStable(Collect(groups, cutoff), d);
    }
  }
}
