/** The rendered link widget: one element per saved record, built by
    `createLinkElement` (SCRIPT/script.js). Only what the element shows is
    kept: the anchor's text and target, from which its favicon source is
    derived. */
module LinkView {
  import opened Links
  import opened Optional

  datatype LinkElement = LinkElement(title: string, href: string) {
    /** The `src` of the element's favicon image; it names the element's own
        target. */
    function Favicon(): (f: string)
      ensures FaviconDomain(f) == Some(href)
    {
      FaviconRoundTrip(href);
      FaviconUrl(href)
    }
  }

  const FaviconPrefix: string := "https://www.google.com/s2/favicons?domain="
  const FaviconSuffix: string := "&sz=256"

  /** The favicon source for a url; the url is spliced in as it is, with no
      encoding. */
  function FaviconUrl(url: string): (r: string)
    ensures |r| == |FaviconPrefix| + |url| + |FaviconSuffix|
    ensures r[..|FaviconPrefix|] == FaviconPrefix
    ensures r[|FaviconPrefix|..|r| - |FaviconSuffix|] == url
    ensures r[|r| - |FaviconSuffix|..] == FaviconSuffix
  {
    FaviconPrefix + url + FaviconSuffix
  }

  /** Recovers the url from a favicon source, if it has the service's shape. */
  function FaviconDomain(src: string): (r: Option<string>)
    ensures r.Some? ==> |src| == |FaviconPrefix| + |r.value| + |FaviconSuffix|
  {
    var n := |FaviconPrefix|;
    var m := |FaviconSuffix|;
    if |src| >= n + m && src[..n] == FaviconPrefix && src[|src| - m..] == FaviconSuffix
    then Some(src[n..|src| - m])
    else None
  }

  /** Every favicon source names its url: different urls never share one. */
  lemma FaviconRoundTrip(url: string)
    ensures FaviconDomain(FaviconUrl(url)) == Some(url)
  {
    var src := FaviconUrl(url);
    var n := |FaviconPrefix|;
    assert src[..n] == FaviconPrefix;
    assert src[|src| - |FaviconSuffix|..] == FaviconSuffix;
    assert src[n..|src| - |FaviconSuffix|] == url;
  }

  /** The element `createLinkElement(link.title, link.url)` builds. */
  function ElementOf(link: Link): (e: LinkElement)
    ensures e.title == link.title && e.href == link.url
  {
    LinkElement(link.title, link.url)
  }

  /** The startup rendering: one element per record, in stored order. */
  function Render(links: seq<Link>): (r: seq<LinkElement>)
    ensures |r| == |links|
    ensures forall i :: 0 <= i < |links| ==> r[i] == ElementOf(links[i])
  {
    seq(|links|, i requires 0 <= i < |links| => ElementOf(links[i]))
  }

  function Hrefs(elements: seq<LinkElement>): (r: seq<string>)
    ensures |r| == |elements|
    ensures forall i :: 0 <= i < |elements| ==> r[i] == elements[i].href
  {
    seq(|elements|, i requires 0 <= i < |elements| => elements[i].href)
  }

  /** The rendered elements link to the records' urls, in order. */
  lemma HrefsOfRender(links: seq<Link>)
    ensures Hrefs(Render(links)) == Urls(links)
  {
  }

  /** Removing element `k` takes its href out of the multiset of hrefs. */
  lemma HrefsOfRemoveAt(elements: seq<LinkElement>, k: nat)
    requires k < |elements|
    ensures multiset(Hrefs(RemoveAt(elements, k))) == multiset(Hrefs(elements)) - multiset{elements[k].href}
  {
    var hs := Hrefs(elements);
    assert Hrefs(RemoveAt(elements, k)) == RemoveAt(hs, k);
    RemoveAtMultiset(hs, k);
  }

  /** When no earlier record shares the url of record `k` (in particular when
      no two records share a url), the delete button of element `k` removes
      record `k` and the view stays exactly the rendering of the list. */
  lemma DistinctUrlsStayInSync(links: seq<Link>, k: nat)
    requires k < |links|
    requires forall j :: 0 <= j < k ==> links[j].url != links[k].url
    ensures RemoveAt(Render(links), k) == Render(RemoveFirst(links, links[k].url))
  {
    var url := links[k].url;
    var spliced := links[..k] + links[k + 1..];
    IndexOfDistinctUrl(links, k);
    RemoveFirstIsSplice(links, url);
    assert RemoveFirst(links, url) == spliced;
    RenderOfSplice(links, k);
  }

  lemma RenderOfSplice(links: seq<Link>, k: nat)
    requires k < |links|
    ensures Render(links[..k] + links[k + 1..]) == RemoveAt(Render(links), k)
  {
  }

  /** With duplicate urls the two drift apart: deleting the element of
      `{B,x}` in `[{A,x},{B,x}]` leaves `{A,x}` on screen but `{B,x}` in the
      list. */
  lemma DuplicateUrlsDiverge()
    ensures var links := [Link("A", "x"), Link("B", "x")];
      RemoveAt(Render(links), 1) == [ElementOf(Link("A", "x"))] &&
      Render(RemoveFirst(links, "x")) == [ElementOf(Link("B", "x"))]
  {
    var links := [Link("A", "x"), Link("B", "x")];
    assert RemoveFirst(links, "x") == [Link("B", "x")];
  }
}
