/** The saved-link records of the start page and the list operations the
    link registry performs on them: first-match lookup by url (the
    `findIndex` of the delete handler) and removal of that one record (the
    `splice` that follows it). */
module Links {

  /** One user-added shortcut: a display title and a target url. Neither is
      validated: any strings, empty ones included, are accepted. */
  datatype Link = Link(title: string, url: string)

  predicate HasUrl(links: seq<Link>, url: string) {
    exists i :: 0 <= i < |links| && links[i].url == url
  }

  /** The urls of the records, in order. */
  function Urls(links: seq<Link>): (r: seq<string>)
    ensures |r| == |links|
    ensures forall i :: 0 <= i < |links| ==> r[i] == links[i].url
  {
    seq(|links|, i requires 0 <= i < |links| => links[i].url)
  }

  /** The index of the first record whose url is `url`, or -1 when there is
      none (the result convention of `Array.prototype.findIndex`). */
  function IndexOfUrl(links: seq<Link>, url: string): (r: int)
    ensures -1 <= r < |links|
    ensures r == -1 <==> !HasUrl(links, url)
    ensures r != -1 ==> links[r].url == url
    ensures r != -1 ==> forall j :: 0 <= j < r ==> links[j].url != url
  {
    if links == [] then -1
    else if links[0].url == url then 0
    else
      var k := IndexOfUrl(links[1..], url);
      if k == -1 then -1 else k + 1
  }

  /** The scan `savedLinks.findIndex((link) => link.url === url)`. */
  method FindIndex(links: seq<Link>, url: string) returns (index: int)
    ensures index == IndexOfUrl(links, url)
  {
    var i := 0;
    while i < |links|
      invariant 0 <= i <= |links|
      invariant forall j :: 0 <= j < i ==> links[j].url != url
    {
      if links[i].url == url {
        return i;
      }
      i := i + 1;
    }
    return -1;
  }

  /** `s` without its element at position `k`: what `splice(k, 1)` leaves. */
  function RemoveAt<T>(s: seq<T>, k: nat): (r: seq<T>)
    requires k < |s|
    ensures |r| == |s| - 1
    ensures forall j :: 0 <= j < k ==> r[j] == s[j]
    ensures forall j :: k <= j < |r| ==> r[j] == s[j + 1]
  {
    s[..k] + s[k + 1..]
  }

  /** Splicing out position `k` takes exactly `s[k]` out of the multiset. */
  lemma RemoveAtMultiset<T>(s: seq<T>, k: nat)
    requires k < |s|
    ensures multiset(RemoveAt(s, k)) + multiset{s[k]} == multiset(s)
  {
    assert s == s[..k] + [s[k]] + s[k + 1..];
  }

  /** Reference definition of deleting by url: drop the first record whose
      url matches and keep everything else, in order. */
  function RemoveFirst(links: seq<Link>, url: string): seq<Link> {
    if links == [] then []
    else if links[0].url == url then links[1..]
    else [links[0]] + RemoveFirst(links[1..], url)
  }

  /** Splicing out position `k + 1` of `[x] + t` keeps `x` in front of `t`
      with its position `k` spliced out. */
  lemma ConsSplice<T>(x: T, t: seq<T>, k: nat)
    requires k < |t|
    ensures [x] + (t[..k] + t[k + 1..]) == ([x] + t)[..k + 1] + ([x] + t)[k + 2..]
  {
    var s := [x] + t;
    assert s[..k + 1] == [x] + t[..k];
    assert s[k + 2..] == t[k + 1..];
  }

  /** The find-then-splice of the delete handler computes RemoveFirst: with a
      match it removes exactly the record at the first matching index,
      otherwise it leaves the list as it is. */
  lemma {:induction false} RemoveFirstIsSplice(links: seq<Link>, url: string)
    ensures var i := IndexOfUrl(links, url);
      RemoveFirst(links, url) == if i == -1 then links else links[..i] + links[i + 1..]
  {
    if links == [] {
    } else if links[0].url == url {
      assert IndexOfUrl(links, url) == 0;
      assert links[..0] + links[1..] == links[1..];
    } else {
      var tail := links[1..];
      assert links == [links[0]] + tail;
      RemoveFirstIsSplice(tail, url);
      var k := IndexOfUrl(tail, url);
      assert IndexOfUrl(links, url) == if k == -1 then -1 else k + 1;
      assert RemoveFirst(links, url) == [links[0]] + RemoveFirst(tail, url);
      if k != -1 {
        ConsSplice(links[0], tail, k);
      }
    }
  }

  /** Deleting by url removes exactly one record when one matches (the first
      one) and none otherwise; everything else keeps its relative order. */
  lemma RemoveFirstRemovesOne(links: seq<Link>, url: string)
    ensures HasUrl(links, url) ==>
      |RemoveFirst(links, url)| == |links| - 1 &&
      multiset(RemoveFirst(links, url)) + multiset{links[IndexOfUrl(links, url)]} == multiset(links)
    ensures !HasUrl(links, url) ==> RemoveFirst(links, url) == links
  {
    RemoveFirstIsSplice(links, url);
    if HasUrl(links, url) {
      RemoveAtMultiset(links, IndexOfUrl(links, url));
    }
  }

  lemma UrlsOfRemoveAt(links: seq<Link>, k: nat)
    requires k < |links|
    ensures Urls(RemoveAt(links, k)) == RemoveAt(Urls(links), k)
  {
  }

  /** Whatever the list, deleting by url takes exactly one occurrence of
      `url` out of the multiset of urls (none when there is none). */
  lemma RemoveFirstUrls(links: seq<Link>, url: string)
    ensures multiset(Urls(RemoveFirst(links, url))) == multiset(Urls(links)) - multiset{url}
  {
    RemoveFirstIsSplice(links, url);
    var us := Urls(links);
    if HasUrl(links, url) {
      var k := IndexOfUrl(links, url);
      UrlsOfRemoveAt(links, k);
      RemoveAtMultiset(us, k);
    } else {
      assert url !in multiset(us);
      assert multiset(us) - multiset{url} == multiset(us);
    }
  }

  /** With duplicate urls only the first record goes:
      `[{A,x},{B,x}]` becomes `[{B,x}]`. */
  lemma RemoveFirstDuplicates()
    ensures RemoveFirst([Link("A", "x"), Link("B", "x")], "x") == [Link("B", "x")]
  {
  }

  /** When no earlier record shares the url of the record at `k` (as when
      urls are pairwise distinct), the record found for that url is the
      record at `k` itself. */
  lemma IndexOfDistinctUrl(links: seq<Link>, k: nat)
    requires k < |links|
    requires forall j :: 0 <= j < k ==> links[j].url != links[k].url
    ensures IndexOfUrl(links, links[k].url) == k
  {
  }
}
