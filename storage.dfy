/** The browser's local storage as the script uses it: string keys, where
    the `links` entry holds the serialised link list and the other keys
    hold plain text. JSON text is not modelled: an entry is either a link
    list exactly as the script wrote it or some other text. */
module Storage {
  import opened Links

  datatype Stored = LinkList(links: seq<Link>) | Text(text: string)

  datatype LoadError = NotALinkList

  datatype Result<T> = Ok(value: T) | Err(error: LoadError)

  /** Storage keys. */
  const LinksKey: string := "links"
  const CityKey: string := "userCity"

  /** What startup reads for the registry: an absent `links` entry gives the
      empty list, a stored list is taken as it is, and any other content
      makes `JSON.parse` (or the `forEach` after it) throw. */
  function LoadLinks(storage: map<string, Stored>): (r: Result<seq<Link>>)
    ensures r.Err? <==> LinksKey in storage && storage[LinksKey].Text?
    ensures LinksKey !in storage ==> r == Ok([])
    ensures LinksKey in storage && storage[LinksKey].LinkList? ==> r == Ok(storage[LinksKey].links)
  {
    if LinksKey !in storage then Ok([])
    else
      match storage[LinksKey]
      case LinkList(links) => Ok(links)
      case Text(_) => Err(NotALinkList)
  }

  /** `localStorage.setItem("links", JSON.stringify(links))`: the whole list
      replaces the entry, reading it back gives the same list, and no other
      entry changes. */
  function SaveLinks(storage: map<string, Stored>, links: seq<Link>): (r: map<string, Stored>)
    ensures LoadLinks(r) == Ok(links)
    ensures r.Keys == storage.Keys + {LinksKey}
    ensures forall k :: k in storage && k != LinksKey ==> r[k] == storage[k]
  {
    storage[LinksKey := LinkList(links)]
  }

  /** Writing any other key leaves what startup would load untouched. */
  lemma LoadIgnoresOtherKeys(storage: map<string, Stored>, key: string, v: Stored)
    requires key != LinksKey
    ensures LoadLinks(storage[key := v]) == LoadLinks(storage)
  {
  }
}
