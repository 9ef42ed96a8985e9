/**
 * What the "Download Labels" tab of the customer's account page lists: one
 * download link per entry of the URL array, in the array's order, or the
 * "No labels available" message when that array is empty.
 *
 * The host's escaping helpers and the default heading are parameters. The
 * default heading is computed from the entry's key (`'Label ' . ($key + 1)`
 * on a key such as "File 1"). Adding 1 to such a string warns on PHP 7 and
 * throws a TypeError on PHP 8; the default heading stays a total opaque
 * function of the key here, and that error path is not modelled.
 */
module CustomerView {
  import opened PhpArrays

  /** `esc_url`, `esc_html` and the key-derived default heading. */
  datatype Helpers = Helpers(escUrl: string -> string, escHtml: string -> string, defaultHeading: string -> string)

  /** One `<a href="…" download>heading</a>`. */
  datatype Link = Link(href: string, text: string)

  /** The page body below the fixed title and introduction. */
  datatype View = NoLabels | Links(links: seq<Link>)

  /** The stored heading whenever the key is set, even when it is empty; the default otherwise. */
  function Heading(headings: PhpArray, key: string, h: Helpers): string
  {
    match Lookup(headings, key)
    case Some(heading) => h.escHtml(heading)
    case None => h.defaultHeading(key)
  }

  function LinkFor(entry: Entry, headings: PhpArray, h: Helpers): Link
  {
    Link(h.escUrl(entry.1), Heading(headings, entry.0, h))
  }

  /** The links of the page, one per URL entry, in order; empty URLs included. */
  function CustomerLinks(urls: seq<Entry>, headings: PhpArray, h: Helpers): (links: seq<Link>)
    ensures |links| == |urls|
    ensures forall i | 0 <= i < |urls| :: links[i] == LinkFor(urls[i], headings, h)
  {
    if urls == [] then [] else [LinkFor(urls[0], headings, h)] + CustomerLinks(urls[1..], headings, h)
  }

  /** The whole list section of the page. */
  function CustomerPage(urls: PhpArray, headings: PhpArray, h: Helpers): (view: View)
    ensures view.NoLabels? <==> urls == []
    ensures view.Links? ==> view.links == CustomerLinks(urls, headings, h)
  {
    if urls == [] then NoLabels else Links(CustomerLinks(urls, headings, h))
  }

  /**
   * Unsetting `key` in both arrays removes exactly the link of that key from
   * the page; every other link keeps its place, its URL and its heading.
   */
  lemma RemovalDropsOnlyItsLink(urls: PhpArray, headings: PhpArray, key: string, h: Helpers)
    ensures var before := CustomerLinks(urls, headings, h);
            var after := CustomerLinks(Unset(urls, key), Unset(headings, key), h);
            if HasKey(urls, key) then after == before[..IndexOf(urls, key)] + before[IndexOf(urls, key) + 1..]
            else after == before
  {
    var rest := Unset(urls, key);
    var after := CustomerLinks(rest, Unset(headings, key), h);
    forall i | 0 <= i < |rest|
      ensures after[i] == LinkFor(rest[i], headings, h)
    {
      assert rest[i] in rest;
      UnsetKeepsOthers(headings, key, rest[i].0);
    }
    var before := CustomerLinks(urls, headings, h);
    if HasKey(urls, key) {
      UnsetPresent(urls, key);
      var j := IndexOf(urls, key);
      assert |after| == |before| - 1;
      forall i | 0 <= i < |after|
        ensures after[i] == (before[..j] + before[j + 1..])[i]
      {
        if i >= j {
          assert rest[i] == urls[i + 1];
        }
      }
    } else {
      UnsetAbsent(urls, key);
    }
  }
}
