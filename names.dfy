/**
 * The pure part of `fetch_orcid_name`: the display name built from a person
 * record, falling back to the ORCID id.
 */
module Names {
  import opened Wrappers
  import opened Text
  import opened Orcid

  /**
   * `" ".join(part for part in [given, family] if part).strip()`, where a
   * missing or null value counts as the empty string.
   */
  function FullName(p: PersonName): (r: string)
    ensures IsTrimmed(r)
    ensures r == "" <==> AllSpace(p.given.GetOr("")) && AllSpace(p.family.GetOr(""))
  {
    var given := p.given.GetOr("");
    var family := p.family.GetOr("");
    JoinedPair(given, family);
    AllSpaceConcat(given, family);
    AllSpaceConcat(given + " ", family);
    AllSpaceConcat(given, " ");
    assert AllSpace(" ");
    Strip(Join(NonEmpty([given, family]), " "))
  }

  /**
   * The display name for `oid`: `None` stands for a failed person request,
   * which yields the id; otherwise the full name, or the id when the full
   * name is empty. The result is the id or a non-empty trimmed name.
   */
  function DisplayName(oid: string, person: Option<PersonName>): (r: string)
    ensures person.None? ==> r == oid
    ensures r == oid || (r != "" && IsTrimmed(r))
  {
    match person
    case None => oid
    case Some(p) =>
      var full := FullName(p);
      if full == "" then oid else full
  }

  /**
   * Joining the non-empty parts of `[given, family]` with one space is
   * `given + " " + family` when both are non-empty and their concatenation
   * otherwise (one of them, or nothing).
   */
  lemma JoinedPair(given: string, family: string)
    ensures Join(NonEmpty([given, family]), " ") ==
              if given != "" && family != "" then given + " " + family else given + family
  {
    assert [given, family][1..] == [family];
    assert NonEmpty([family]) == if family == "" then [] else [family] by {
      assert [family][1..] == [];
    }
  }

  /**
   * The display name in closed form: the two name values, joined by one
   * space when both are non-empty, stripped of surrounding whitespace; the
   * id when that leaves nothing or when the request failed.
   */
  lemma DisplayNameSpec(oid: string, person: Option<PersonName>)
    ensures person.Some? ==>
              var g := person.value.given.GetOr("");
              var f := person.value.family.GetOr("");
              var full := Strip(if g != "" && f != "" then g + " " + f else g + f);
              DisplayName(oid, person) == if full == "" then oid else full
  {
    if person.Some? {
      JoinedPair(person.value.given.GetOr(""), person.value.family.GetOr(""));
    }
  }

  /**
   * For trimmed, non-empty names the display name is exactly "given family";
   * with only one of them it is that one; with neither it is the id.
   */
  lemma DisplayNameCases(oid: string, given: string, family: string)
    requires IsTrimmed(given) && IsTrimmed(family)
    ensures given != "" && family != "" ==>
              DisplayName(oid, Some(PersonName(Some(given), Some(family)))) == given + " " + family
    ensures given != "" && family == "" ==>
              DisplayName(oid, Some(PersonName(Some(given), None))) == given
    ensures given == "" && family != "" ==>
              DisplayName(oid, Some(PersonName(None, Some(family)))) == family
    ensures DisplayName(oid, Some(PersonName(None, None))) == oid
  {
    if given != "" && family != "" {
      BothNames(oid, given, family);
    }
    if given != "" {
      OneName(oid, given, true);
    }
    if family != "" {
      OneName(oid, family, false);
    }
    NoName(oid);
  }

  /** Two trimmed, non-empty names are joined by one space and stay as they are. */
  lemma BothNames(oid: string, given: string, family: string)
    requires IsTrimmed(given) && IsTrimmed(family) && given != "" && family != ""
    ensures DisplayName(oid, Some(PersonName(Some(given), Some(family)))) == given + " " + family
  {
    JoinedPair(given, family);
    var s := given + " " + family;
    assert s[0] == given[0] && s[|s| - 1] == family[|family| - 1];
    assert IsTrimmed(s);
  }

  /** A single trimmed, non-empty name, given (`first`) or family, is the display name. */
  lemma OneName(oid: string, name: string, first: bool)
    requires IsTrimmed(name) && name != ""
    ensures first ==> DisplayName(oid, Some(PersonName(Some(name), None))) == name
    ensures !first ==> DisplayName(oid, Some(PersonName(None, Some(name)))) == name
  {
    if first {
      JoinedPair(name, "");
      assert name + "" == name;
    } else {
      JoinedPair("", name);
      assert "" + name == name;
    }
  }

  /** With no name values at all the display name is the id. */
  lemma NoName(oid: string)
    ensures DisplayName(oid, Some(PersonName(None, None))) == oid
  {
    JoinedPair("", "");
  }
}
