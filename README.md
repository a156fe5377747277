# orcid_to_bluesky in Dafny

A model of the deterministic core of `orcid_to_bluesky.py`, a script that
reads the public ORCID records of a configured list of researchers and posts
an announcement to Bluesky for each recently modified work. The model covers
four parts of it:

- **`filter_recent`** (module `Filter`, with `Ordering`). It walks the work
  groups of one record and keeps the summaries whose last-modified time is
  present, non-zero and not before the cutoff. For each kept summary it takes
  the title through the three-way type dispatch and the DOI link from the
  first usable DOI entry. It returns the records newest first, using Python's
  stable reverse sort. The nested loops and the DOI scan are methods with loop
  invariants. Each method is proved equal to a recursive specification
  function, and the filtering, ordering, permutation and stability properties
  are proved about those functions.
- **The display name** (module `Names`, with `Text`). The non-empty given and
  family names are joined with one space and stripped. The ORCID id is used
  when the request fails or when nothing is left. `Text` models Python's
  `str.strip()`, `str.join` and the `lower()` comparison.
- **The post text** (module `Posts`). The header names the author and links
  the ORCID profile. The title follows on the next line, and the DOI link on
  a third line when it is truthy. A parser for the same layout comes with
  round-trip lemmas in both directions.
- **The run of `main`** (modules `Runner` and `Schedule`). It is a loop over
  the configured ids with a `posted` counter checked against
  `max_posts_total` (default 5), and a name cache filled once per id. The
  network enters as two maps, described below. Posting appends to the
  sequence of posts.

  `Schedule` states what a run promises and proves how each pass of the loop
  keeps it. Those proofs are written for any per-id announcement function;
  `Runner` instantiates them with the real one.

The network is modelled as two maps:

- `people` maps an id to its person record. An id missing from `people`
  stands for a person request that failed, and that id is used as the name.
- `works` maps an id to its work groups. An id missing from `works` stands
  for a works request that raised. That exception is not caught in `main`,
  so the run ends there, and the posts already sent stand.

The filter reads only `last-modified-date`. There is no fallback to another
date, no truncation of the post text and no hashtags.

## Model

| member | source | states |
|---|---|---|
| `Text.Strip` | orcid_to_bluesky.py:40 | `str.strip()`: the result is the slice of the input between leading and trailing whitespace (Python's `isspace` set), is itself trimmed, is empty exactly when the input is all whitespace, and leaves a trimmed string unchanged |
| `Text.NonEmpty` | orcid_to_bluesky.py:40 | the `if part` filter: every part kept is non-empty and comes from the input, and every non-empty part of the input is kept |
| `Text.Join` | orcid_to_bluesky.py:40 | `str.join`: no parts give the empty string, one part gives itself, and more start with the first part followed by the separator |
| `Text.JoinTwo` | orcid_to_bluesky.py:40 | joining two parts gives the first, the separator and the second |
| `Text.NonEmptyTwo` | orcid_to_bluesky.py:40 | filtering `[given, family]` by truthiness keeps the non-empty ones in their order, each once |
| `Text.Lower` | orcid_to_bluesky.py:88 | `str.lower()` on ASCII: same length, every upper-case ASCII letter becomes its lower-case letter (so none is left), every other character is kept |
| `Names.JoinedPair` | orcid_to_bluesky.py:40 | joining the truthy parts of `[given, family]` with one space gives `given + " " + family` when both are non-empty, and otherwise the one that is (or nothing) |
| `Names.FullName` | orcid_to_bluesky.py:36-40 | the stripped join of the two name values has no surrounding whitespace, and is empty exactly when both values are empty or all whitespace |
| `Names.DisplayName` | orcid_to_bluesky.py:32-45 | a failed person request yields the id; otherwise the result is the id or a non-empty name with no surrounding whitespace |
| `Names.DisplayNameSpec` | orcid_to_bluesky.py:36-45 | closed form of the name: the two values (a missing or null one counts as empty) joined by one space when both are non-empty, then stripped; the id when that is empty |
| `Names.DisplayNameCases` | orcid_to_bluesky.py:36-45 | for trimmed names: both give "given family", one gives that one, and neither gives the id |
| `Filter.TitleOf` | orcid_to_bluesky.py:76-83 | an object gives its `value`, or "(no title)" without one; a non-empty string is used verbatim; an empty string (falsy, so replaced by `{}`) and any other value give "(no title)"; the title is empty only for an object whose value is "" |
| `Filter.DoiUrl` | orcid_to_bluesky.py:85-92 | a link exists exactly when some entry has type "doi" (any case) and a non-empty value; it is "https://doi.org/" followed by the value of the FIRST such entry, so empty DOI values are skipped and later DOIs are ignored |
| `Filter.DoiSpellings` | orcid_to_bluesky.py:88 | the lower-cased type equals "doi" exactly for the eight upper/lower-case spellings of "doi" (a missing or null type never does) |
| `Filter.FirstDoiUrl` | orcid_to_bluesky.py:86-92 | the scan loop with `break` returns exactly `DoiUrl` |
| `Filter.Keep` | orcid_to_bluesky.py:67-73 | the test of one summary: a last-modified value that is present (`continue` when it is falsy, so also when it is zero) and not before the cutoff (`continue` when `dt < cutoff`) |
| `Filter.KeepIsRecent` | orcid_to_bluesky.py:61-73 | with the cutoff of a `days`-day window, a summary is kept exactly when its time is present, non-zero and at most `days` days before now |
| `Filter.CollectIsKept` | orcid_to_bluesky.py:65-94 | the nested loops over groups and summaries collect the kept records of all summaries, in order |
| `Filter.KeptExactly` | orcid_to_bluesky.py:66-94 | a record is collected exactly when it is the record of a summary whose last-modified value is present, non-zero and at or after the cutoff |
| `Filter.KeptDated` | orcid_to_bluesky.py:67-73 | every collected record is dated at or after the cutoff and not zero |
| `Filter.FilterRecent` | orcid_to_bluesky.py:60-98 | the method equals `RecentWorks` (nested loops, `continue` on missing, zero or old timestamps, then the sort), is newest first, and every record in it lies in the window |
| `Filter.RecentWorks` | orcid_to_bluesky.py:60-98 | what `filter_recent` returns: the records collected by the nested loops, put through the stable newest-first sort; its properties are those of `RecentWorksSpec` and `RecentWorksDated` |
| `Filter.RecentWorksDated` | orcid_to_bluesky.py:94-98 | the result of `filter_recent` is newest first and every record in it lies in the window |
| `Filter.RecentWorksSpec` | orcid_to_bluesky.py:65-98 | membership in both directions (kept summary ⇔ record in the output, cutoff inclusive), newest first, a permutation of the collected records, and records of equal date in input order |
| `Ordering.Insert` | orcid_to_bluesky.py:98 | inserting into a newest-first sequence keeps it newest first and adds exactly the one record |
| `Ordering.SortNewestFirst` | orcid_to_bluesky.py:98 | the sort is newest first and a permutation of its input |
| `Ordering.InsertKeepsDateOrder` | orcid_to_bluesky.py:98 | insertion puts the record before the others of its date and leaves other dates' records as they were |
| `Ordering.SortIsStable` | orcid_to_bluesky.py:98 | stability of `sorted(..., reverse=True)`: for every date, its records keep their input order |
| `Posts.Header` | orcid_to_bluesky.py:143 | the first line ends in a newline |
| `Posts.Body` | orcid_to_bluesky.py:143-146 | the body starts with the title and is longer than it exactly when the link is truthy |
| `Posts.PostText` | orcid_to_bluesky.py:143-146 | every post text starts with the header for its author and id |
| `Posts.ParseBodyOf` | orcid_to_bluesky.py:143-146 | a body whose title has no newline reads back as its title and, exactly when truthy, its link |
| `Posts.BodyOfParsed` | orcid_to_bluesky.py:143-146 | every body that reads back is rebuilt exactly from what it reads back as |
| `Posts.ParsePostText` | orcid_to_bluesky.py:143-146 | round trip: post text, then parse, gives the title and the link, which is present exactly when the URL is truthy |
| `Posts.ParsedPostText` | orcid_to_bluesky.py:143-146 | converse round trip: every text that parses is the post text of what it parses to |
| `Runner.MaxPosts` | orcid_to_bluesky.py:113 | `cfg.get("max_posts_total", 5)`: the configured value when the key is present, 5 when it is absent |
| `Runner.Budget` | orcid_to_bluesky.py:113 | the number of posts allowed: `max_posts` when it is positive (so 5 when the key is absent), none otherwise |
| `Runner.GuardIsBudget` | orcid_to_bluesky.py:120-121 | the guard `posted >= max_posts` trips exactly when the count reaches the budget, and the room below `max_posts` is what is left of the budget |
| `Runner.PostTextsReadBack` | orcid_to_bluesky.py:137-146 | each of an id's post texts reads back as its work's title and, exactly when truthy, its link, for titles without a line break |
| `Runner.PostWorks` | orcid_to_bluesky.py:137-151 | the inner loop sends the texts of the items in order while the counter is below `max_posts`: the posts become the old posts followed by as many texts as there is room for |
| `Runner.VisitId` | orcid_to_bluesky.py:123-151 | one id: the name is requested only when the id is not cached, and the cache then maps it to its name; a failed works request sends nothing; otherwise the id's announcements are sent up to the remaining room |
| `Runner.Advance` | orcid_to_bluesky.py:119-151 | a pass with budget left either moves the loop state on to the next id or, when the works request fails, ends the run as `RunSpec` promises |
| `Runner.Run` | orcid_to_bluesky.py:113-151 | `RunSpec`: at most the budget is posted, and exactly the first budget-many of the announcements of the ids before the first failing one (ids in configured order, newest first within an id); a failing id is reached only with budget left, and then the run stops there; works are requested for a prefix of the ids, the last of them reached with budget left; an aborted run requested works up to and including the failing id, and a finished run stops before the last id only when the announcements of the ids it visited fill the budget; names are requested once per distinct id, at its first occurrence |
| `Runner.NamesLookedUpOnce` | orcid_to_bluesky.py:117-127 | the person record is requested for exactly the ids that were visited, and never twice for one id |
| `Schedule.FirstUnfetchable` | orcid_to_bluesky.py:130 | every id before the returned position has a works response, and the id at that position (if any) has none |
| `Schedule.DedupDistinct` | orcid_to_bluesky.py:125-127 | the ids looked up through the cache are those visited, each once |
| `Schedule.StreamPrefix` | orcid_to_bluesky.py:119-151 | the posts for a prefix of the ids are a prefix of the posts for all of them, so posts come out id by id in configured order |
| `Schedule.ProgressStep` | orcid_to_bluesky.py:119-151 | a pass for an id whose works request succeeds keeps the loop invariant: the posts are the budget's share of the announcements so far, requests and cache cover exactly the ids visited |
| `Schedule.BudgetSpent` | orcid_to_bluesky.py:120-121 | when the counter reaches `max_posts` the budget is spent, and no later id is visited or posted for |
| `Schedule.FetchFailed` | orcid_to_bluesky.py:130 | when a works request raises, the run ends at that id, having sent every announcement before it |
| `Schedule.AllVisited` | orcid_to_bluesky.py:119 | a run that visits every id has posted the budget's share of all announcements |

## Left out

- `load_config` and YAML (orcid_to_bluesky.py:11-16) are not modelled: the configuration enters as a `Config` value. The model does not cover a non-integer `max_posts_total` or `days_back`, or a missing `orcid_ids` or `days_back` key, all of which fail or behave as Python's dynamic typing dictates.
- The HTTP requests (orcid_to_bluesky.py:24-34, 48-57) are replaced by the `people` and `works` maps. The model does not distinguish the kinds of failure: any failure of the person request, including a JSON decoding error, is an absent `people` entry.
- The credential check, the Bluesky login and `send_post` (orcid_to_bluesky.py:104-111, 149) are left out. A post is modelled as appending its text to the sequence of posts, and a `send_post` that raises is not modelled.
- `print` logging and `time.sleep(1)` are left out: neither affects what is posted.
- The clock is a single reading `nowMs`, in milliseconds, shared by the whole run. The script reads `datetime.now` again in every call of `filter_recent`.
- `Filter.Cutoff`: the test `datetime.fromtimestamp(int(ts) / 1000) >= now - timedelta(days)` is modelled as the exact integer comparison `ts >= nowMs - days * 86400000`. The float division and microsecond rounding can differ from it only below a millisecond, or for timestamps too large for a double to hold exactly.
- Inputs of a shape that makes the script raise inside `filter_recent` or `fetch_orcid_name` are not modelled, because the datatypes rule them out. Examples: a null `last-modified-date` object, a title object or external-id entry that is not a dictionary, a non-string id type, or a timestamp that `int()` rejects.
- Python's `datetime` range (years 1 to 9999) is not modelled: timestamps and windows are unbounded integers. A last-modified value past the year 9999 makes `datetime.fromtimestamp` raise (orcid_to_bluesky.py:71), and a `days_back` too large for `timedelta` arithmetic makes the cutoff computation raise (orcid_to_bluesky.py:61). Either would end the run. The model instead compares the integers, keeping or dropping the work.
- `Filter.TitleOf`: a title object whose `value` key holds JSON null is treated like one without the key ("(no title)"). In the script, `get` returns `None` there and the post would read "None".
- `Text.Lower` only lower-cases ASCII letters. For the comparison with "doi" this is the same as Python's `str.lower()`, since no other character lower-cases to a single ASCII `d`, `o` or `i`.
