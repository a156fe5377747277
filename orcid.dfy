/**
 * The parts of the ORCID public API's JSON that the script reads, as typed
 * values. The API's JSON is loosely typed; each datatype below says how the
 * shapes the script distinguishes are mapped onto it.
 */
module Orcid {
  import opened Wrappers

  /**
   * The inner `title.title` value of a work summary. The script substitutes an
   * empty object for a missing or null title at either level (`or {}`), so
   * those arrive here as `TitleRecord(None)`; `TitleRecord(Some(v))` is an
   * object carrying a `value` string; any other JSON value is `TitleOther`.
   */
  datatype TitleValue =
    | TitleText(text: string)
    | TitleRecord(value: Option<string>)
    | TitleOther

  /** One entry of `external-ids.external-id`; a missing or null field is `None`. */
  datatype ExternalId = ExternalId(idType: Option<string>, value: Option<string>)

  /**
   * One `work-summary`: its `last-modified-date.value` in milliseconds since
   * the epoch (`None` when the field is missing or null), its title and its
   * external identifiers.
   */
  datatype WorkSummary = WorkSummary(
    lastModified: Option<int>,
    title: TitleValue,
    externalIds: seq<ExternalId>)

  /** One entry of the works response's `group` list; a missing `work-summary` list is empty. */
  datatype Group = Group(summaries: seq<WorkSummary>)

  /** The record `filter_recent` emits for a recent work: title, DOI link and date. */
  datatype FilteredWork = FilteredWork(title: string, url: Option<string>, date: int)

  /**
   * The `name` object of a person record, reduced to the two values the
   * script reads: `given-names.value` and `family-name.value` (`None` when
   * missing or null at any level).
   */
  datatype PersonName = PersonName(given: Option<string>, family: Option<string>)
}
