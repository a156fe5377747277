/**
 * The text of one announcement, as built in `main`: a header naming the
 * author and linking the ORCID profile, the title on the next line, and the
 * DOI link on a third line when there is one.
 */
module Posts {
  import opened Wrappers

  const ProfileBase := "https://orcid.org/"

  /** The first line and its newline: "New paper from NAME (ORCID: https://orcid.org/ID)". */
  function Header(name: string, oid: string): (r: string)
    ensures |r| > 0 && r[|r| - 1] == '\n'
  {
    "New paper from " + name + " (ORCID: " + ProfileBase + oid + ")\n"
  }

  /** The link is added only when it is truthy, that is present and non-empty. */
  predicate HasLink(url: Option<string>)
  {
    url.Some? && url.value != ""
  }

  /** What follows the header: the title, then the link on its own line when it is truthy. */
  function Body(title: string, url: Option<string>): (r: string)
    ensures title <= r
    ensures HasLink(url) <==> |r| > |title|
  {
    title + (if HasLink(url) then "\n" + url.value else "")
  }

  /** The post text for one work: the header, then the body. */
  function PostText(name: string, oid: string, title: string, url: Option<string>): (r: string)
    ensures Header(name, oid) <= r
  {
    Header(name, oid) + Body(title, url)
  }

  /** The position of the first `c` in `s`, if any. */
  function IndexOf(s: string, c: char): (r: Option<nat>)
    ensures r.None? <==> c !in s
    ensures r.Some? ==> r.value < |s| && s[r.value] == c && c !in s[..r.value]
  {
    if s == [] then None
    else if s[0] == c then Some(0)
    else
      var r := IndexOf(s[1..], c);
      if r.None? then None
      else
        assert s[..r.value + 1] == [s[0]] + s[1..][..r.value];
        Some(r.value + 1)
  }

  /** Reads a body back: the title is the text up to the first newline, the link what follows it. */
  function ParseBody(rest: string): Option<(string, Option<string>)>
  {
    match IndexOf(rest, '\n')
    case None => Some((rest, None))
    case Some(k) =>
      if k + 1 == |rest| then None else Some((rest[..k], Some(rest[k + 1..])))
  }

  /**
   * Reads a post back: given the author's name and id, recovers the title
   * and the link line, if any, after the header.
   */
  function ParsePost(text: string, name: string, oid: string): Option<(string, Option<string>)>
  {
    var h := Header(name, oid);
    if |text| < |h| || text[..|h|] != h then None else ParseBody(text[|h|..])
  }

  /** A body whose title holds no newline reads back as its title and its truthy link. */
  lemma ParseBodyOf(title: string, url: Option<string>)
    requires '\n' !in title
    ensures ParseBody(Body(title, url)) == Some((title, if HasLink(url) then url else None))
  {
    var rest := Body(title, url);
    if HasLink(url) {
      assert rest[|title|] == '\n' && rest[..|title|] == title;
      assert IndexOf(rest, '\n') == Some(|title|);
      assert rest[|title| + 1..] == url.value;
    } else {
      assert rest == title;
    }
  }

  /** Every body that reads back is the body built from what it reads back as. */
  lemma BodyOfParsed(rest: string)
    requires ParseBody(rest).Some?
    ensures var (title, url) := ParseBody(rest).value;
            '\n' !in title && (url.Some? ==> HasLink(url)) && Body(title, url) == rest
  {
    match IndexOf(rest, '\n')
    case None =>
    case Some(k) =>
      SplitAt(rest, k);
  }

  /**
   * Round trip: a post whose title holds no newline reads back as its title
   * and its link; the link line is there exactly when the link is truthy.
   */
  lemma ParsePostText(name: string, oid: string, title: string, url: Option<string>)
    requires '\n' !in title
    ensures ParsePost(PostText(name, oid, title, url), name, oid)
              == Some((title, if HasLink(url) then url else None))
  {
    var h := Header(name, oid);
    var body := Body(title, url);
    HeadAndTail(h, body);
    ParseBodyOf(title, url);
  }

  /** The converse: every text that reads back is the post built from what it reads back as. */
  lemma ParsedPostText(text: string, name: string, oid: string)
    requires ParsePost(text, name, oid).Some?
    ensures var (title, url) := ParsePost(text, name, oid).value;
            '\n' !in title && (url.Some? ==> HasLink(url)) && PostText(name, oid, title, url) == text
  {
    var h := Header(name, oid);
    var rest := text[|h|..];
    assert text == h + rest;
    BodyOfParsed(rest);
  }

  /** Splitting a concatenation at the length of its first part gives both parts back. */
  lemma HeadAndTail<T>(a: seq<T>, b: seq<T>)
    ensures (a + b)[..|a|] == a && (a + b)[|a|..] == b
  {
  }

  /** A sequence is what comes before position `k`, the element there, and what comes after. */
  lemma SplitAt<T>(s: seq<T>, k: nat)
    requires k < |s|
    ensures s == s[..k] + [s[k]] + s[k + 1..]
  {
  }
}
