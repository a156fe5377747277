/**
 * One run of `main`: for each configured ORCID id in order, resolve the
 * author's name (once per distinct id), fetch and filter the works, and post
 * one announcement per recent work, newest first, until the post budget is
 * spent. The person and works requests are given as maps; the posts sent and
 * the requests made are returned as sequences.
 */
module Runner {
  import opened Wrappers
  import opened Orcid
  import opened Filter
  import opened Names
  import opened Posts
  import opened Schedule

  /** The configuration keys the run reads; `maxPostsTotal` is `None` when the key is absent. */
  datatype Config = Config(orcidIds: seq<string>, daysBack: int, maxPostsTotal: Option<int>)

  /** `cfg.get("max_posts_total", 5)`: the configured value, or 5 when the key is absent. */
  function MaxPosts(cfg: Config): (m: int)
    ensures cfg.maxPostsTotal.Some? ==> m == cfg.maxPostsTotal.value
    ensures cfg.maxPostsTotal.None? ==> m == 5
  {
    cfg.maxPostsTotal.GetOr(5)
  }

  /** The number of posts a run may make: `max_posts`, or none when it is not positive. */
  function Budget(cfg: Config): (b: nat)
    ensures cfg.maxPostsTotal.None? ==> b == 5
    ensures b <= 0 <==> MaxPosts(cfg) <= 0
    ensures MaxPosts(cfg) > 0 ==> b == MaxPosts(cfg)
  {
    if MaxPosts(cfg) <= 0 then 0 else MaxPosts(cfg)
  }

  /**
   * The guard `posted >= max_posts` of both loops trips exactly when the
   * count of posts reaches the budget, and the room left below the limit is
   * what remains of the budget.
   */
  lemma GuardIsBudget(cfg: Config, posted: nat)
    ensures posted >= MaxPosts(cfg) <==> posted >= Budget(cfg)
    ensures Room(MaxPosts(cfg), posted) == if posted < Budget(cfg) then Budget(cfg) - posted else 0
  {
  }

  /** The person request for `oid`: an id missing from `people` stands for a request that failed. */
  function NameOf(oid: string, people: map<string, PersonName>): string
  {
    DisplayName(oid, if oid in people then Some(people[oid]) else None)
  }

  /** The post texts for `items`, one per work, in order. */
  function PostTexts(name: string, oid: string, items: seq<FilteredWork>): (r: seq<string>)
    ensures |r| == |items|
    ensures forall j :: 0 <= j < |items| ==> r[j] == PostText(name, oid, items[j].title, items[j].url)
  {
    seq(|items|, j requires 0 <= j < |items| => PostText(name, oid, items[j].title, items[j].url))
  }

  /**
   * Every post text reads back as its work's title and, exactly when it is
   * truthy, its link, provided the title has no line break.
   */
  lemma {:induction false} PostTextsReadBack(name: string, oid: string, items: seq<FilteredWork>)
    ensures forall j :: 0 <= j < |items| && '\n' !in items[j].title ==>
              ParsePost(PostTexts(name, oid, items)[j], name, oid)
                == Some((items[j].title, if HasLink(items[j].url) then items[j].url else None))
  {
    forall j | 0 <= j < |items| && '\n' !in items[j].title
      ensures ParsePost(PostTexts(name, oid, items)[j], name, oid)
                == Some((items[j].title, if HasLink(items[j].url) then items[j].url else None))
    {
      ParsePostText(name, oid, items[j].title, items[j].url);
    }
  }

  /** The announcements for the recent works among `groups`, newest first, in the name of `oid`. */
  function Announcements(oid: string, people: map<string, PersonName>, groups: seq<Group>,
                         nowMs: int, days: int): seq<string>
  {
    PostTexts(NameOf(oid, people), oid, RecentWorks(groups, nowMs, days))
  }

  /**
   * What the run would announce for each id with no budget: the
   * announcements of its recent works when its works request succeeds.
   */
  function Announcer(people: map<string, PersonName>, works: map<string, seq<Group>>,
                     nowMs: int, days: int): (announce: string -> seq<string>)
    ensures forall oid :: oid in works ==>
              announce(oid) == Announcements(oid, people, works[oid], nowMs, days)
  {
    oid => if oid in works then Announcements(oid, people, works[oid], nowMs, days) else []
  }

  /** How many more posts fit when `posted` have been made and `max_posts` is the limit. */
  function Room(maxPosts: int, posted: nat): nat
  {
    if maxPosts > posted then maxPosts - posted else 0
  }

  /**
   * The inner loop of `main`: posts the texts for `items` in order, checking
   * the run's `posted` counter against `max_posts` before each one. The
   * posts sent are `sent` followed by as many of the texts as there is room for.
   */
  method PostWorks(name: string, oid: string, items: seq<FilteredWork>, maxPosts: int, sent: seq<string>)
    returns (out: seq<string>)
    ensures out == sent + Take(PostTexts(name, oid, items), Room(maxPosts, |sent|))
  {
    ghost var texts := PostTexts(name, oid, items);
    out := sent;
    var posted := |sent|;
    var j := 0;
    while j < |items|
      invariant 0 <= j <= |items|
      invariant posted == |out| == |sent| + j
      invariant j <= Room(maxPosts, |sent|) || j == 0
      invariant out == sent + texts[..j]
    {
      if posted >= maxPosts {
        break;
      }
      var item := items[j];
      var text := PostText(name, oid, item.title, item.url);
      PrefixStep(texts, j);
      out := out + [text];
      posted := posted + 1;
      j := j + 1;
    }
    assert j == |items| ==> texts[..j] == texts;
  }

  /**
   * One pass of the loop of `main` over the ids, once the budget check has
   * passed: resolve the name through the cache (requesting it only when the
   * id is not cached yet), request the works (`failed` when that raises),
   * filter them, and post what there is room for.
   */
  method VisitId(oid: string, people: map<string, PersonName>, works: map<string, seq<Group>>,
                 nowMs: int, days: int, maxPosts: int, nameCache: map<string, string>, posts: seq<string>)
    returns (cache: map<string, string>, lookedUp: bool, failed: bool, out: seq<string>)
    requires oid in nameCache ==> nameCache[oid] == NameOf(oid, people)
    ensures lookedUp <==> oid !in nameCache
    ensures cache == nameCache[oid := NameOf(oid, people)]
    ensures failed <==> oid !in works
    ensures failed ==> out == posts
    ensures !failed ==> out == posts + Take(Announcements(oid, people, works[oid], nowMs, days), Room(maxPosts, |posts|))
  {
    cache := nameCache;
    lookedUp := oid !in cache;
    if lookedUp {
      cache := cache[oid := NameOf(oid, people)];
    } else {
      assert cache == nameCache[oid := NameOf(oid, people)];
    }
    var authorName := cache[oid];
    failed := oid !in works;
    if failed {
      out := posts;
      return;
    }
    var items := FilterRecent(works[oid], nowMs, days);
    assert PostTexts(authorName, oid, items) == Announcements(oid, people, works[oid], nowMs, days);
    if |items| == 0 {
      // no recent works: nothing is posted for this id
      out := posts;
      return;
    }
    out := PostWorks(authorName, oid, items, maxPosts, posts);
  }

  /** The person request as a function of the id. */
  function Namer(people: map<string, PersonName>): (nameOf: string -> string)
    ensures forall oid :: nameOf(oid) == NameOf(oid, people)
  {
    oid => NameOf(oid, people)
  }

  /** `RunOutcome` for the configured ids, announcements and budget. */
  ghost predicate RunSpec(cfg: Config, nowMs: int, people: map<string, PersonName>,
                          works: map<string, seq<Group>>, report: RunReport)
  {
    RunOutcome(cfg.orcidIds, works, Announcer(people, works, nowMs, cfg.daysBack), Budget(cfg), report)
  }

  /**
   * One pass of the loop of `main` for `ids[i]` once the budget check has
   * passed, with the state it leaves: either the state before the next id,
   * or, when the works request fails, a run that ends here as promised.
   */
  method Advance(cfg: Config, nowMs: int, people: map<string, PersonName>, works: map<string, seq<Group>>,
                 ghost announce: string -> seq<string>, ghost nameOf: string -> string,
                 i: nat, posts: seq<string>, fetches: seq<string>, lookups: seq<string>,
                 nameCache: map<string, string>)
    returns (failed: bool, posts': seq<string>, fetches': seq<string>, lookups': seq<string>,
             nameCache': map<string, string>)
    requires i < |cfg.orcidIds| && |posts| < MaxPosts(cfg)
    requires var oid := cfg.orcidIds[i];
             && (oid in works ==> announce(oid) == Announcements(oid, people, works[oid], nowMs, cfg.daysBack))
             && nameOf(oid) == NameOf(oid, people)
    requires Progress(cfg.orcidIds, works, announce, nameOf, Budget(cfg), i, posts, fetches, lookups, nameCache)
    ensures failed <==> cfg.orcidIds[i] !in works
    ensures failed ==> RunOutcome(cfg.orcidIds, works, announce, Budget(cfg),
                                  RunReport(posts', lookups', fetches', Aborted(cfg.orcidIds[i])))
    ensures !failed ==> Progress(cfg.orcidIds, works, announce, nameOf, Budget(cfg), i + 1,
                                 posts', fetches', lookups', nameCache')
  {
    var ids := cfg.orcidIds;
    var days := cfg.daysBack;
    var maxPosts := MaxPosts(cfg);
    ghost var budget := Budget(cfg);
    var oid := ids[i];
    var lookedUp;
    nameCache', lookedUp, failed, posts' := VisitId(oid, people, works, nowMs, days, maxPosts, nameCache, posts);
    lookups' := if lookedUp then lookups + [oid] else lookups;
    fetches' := fetches + [oid];
    if failed {
      FetchFailed(ids, works, announce, nameOf, budget, i, posts, fetches, lookups, nameCache, lookups');
    } else {
      assert Room(maxPosts, |posts|) == budget - |posts|;
      ProgressStep(ids, works, announce, nameOf, budget, i, posts, fetches, lookups, nameCache,
                   posts', lookups', nameCache');
    }
  }

  /**
   * `main` after login: a loop over the configured ids with a `posted`
   * counter checked against `max_posts` and a name cache; it does what
   * `RunSpec` says.
   */
  method Run(cfg: Config, nowMs: int, people: map<string, PersonName>, works: map<string, seq<Group>>)
    returns (report: RunReport)
    ensures RunSpec(cfg, nowMs, people, works, report)
  {
    var ids := cfg.orcidIds;
    var maxPosts := MaxPosts(cfg);
    ghost var budget := Budget(cfg);
    ghost var announce := Announcer(people, works, nowMs, cfg.daysBack);
    ghost var nameOf := Namer(people);
    var posted := 0;
    var nameCache: map<string, string> := map[];
    var posts: seq<string> := [];
    var lookups: seq<string> := [];
    var fetches: seq<string> := [];
    var outcome := Finished;
    ProgressStart(ids, works, announce, nameOf, budget);

    var i := 0;
    while i < |ids|
      invariant i <= |ids|
      invariant posted == |posts|
      invariant Progress(ids, works, announce, nameOf, budget, i, posts, fetches, lookups, nameCache)
    {
      if posted >= maxPosts {
        BudgetSpent(ids, works, announce, nameOf, budget, i, posts, fetches, lookups, nameCache);
        break;
      }
      var failed;
      failed, posts, fetches, lookups, nameCache :=
        Advance(cfg, nowMs, people, works, announce, nameOf, i, posts, fetches, lookups, nameCache);
      posted := |posts|;
      if failed {
        outcome := Aborted(ids[i]);
        break;
      }
      i := i + 1;
    }
    if i == |ids| {
      AllVisited(ids, works, announce, nameOf, budget, posts, fetches, lookups, nameCache);
    }
    report := RunReport(posts, lookups, fetches, outcome);
  }

  /**
   * The name cache at work: in a run, the person record is requested for
   * exactly the ids whose works were requested, and never twice for one id.
   */
  lemma NamesLookedUpOnce(cfg: Config, nowMs: int, people: map<string, PersonName>,
                          works: map<string, seq<Group>>, report: RunReport)
    requires RunSpec(cfg, nowMs, people, works, report)
    ensures forall x :: x in report.nameLookups <==> x in report.worksFetches
    ensures forall i, j :: 0 <= i < j < |report.nameLookups| ==> report.nameLookups[i] != report.nameLookups[j]
  {
    DedupDistinct(report.worksFetches);
  }
}
