/** `HalResource`: the `_links` capability every HAL model shares. */
module BaseHal {
  import opened Js

  datatype Link = Link(href: string, resourceType: string)

  /** `_links` is a `Map` from relation name to link. */
  datatype HalResource = HalResource(links: map<string, Link>)

  /** `hasLink(key)`: `_links.has(key)`. */
  predicate HasLink(r: HalResource, key: string) {
    key in r.links
  }

  /** `getHref(name)`: `_links.get(name)?.href`, `None` standing for
      `undefined`. */
  function GetHref(r: HalResource, name: string): (href: Option<string>)
    ensures name !in r.links ==> href == None
    ensures name in r.links ==> href == Some(r.links[name].href)
  {
    if name in r.links then Some(r.links[name].href) else None
  }

  /** The two accessors agree: a link has an href exactly when it exists. */
  lemma HrefIffLink(r: HalResource, name: string)
    ensures GetHref(r, name).Some? <==> HasLink(r, name)
  {
  }
}
