/** The parsed page as the extractors see it: a sequence of elements in
    document order, each with its tag, its single-valued attributes, the
    tokens of its multi-valued `rel` attribute, its stripped text and its
    `.string`. The library functions the extractors call on URLs and on
    JSON text are parameters (`Library`). */
module Document {
  import opened Wrappers
  import opened Text

  datatype Element = Element(
    tag: string,
    attrs: map<string, string>,   // single-valued attributes as written
    rel: seq<string>,             // tokens of `rel`; [] when the attribute is absent
    text: string,                 // get_text(strip=True)
    str: Option<string>)          // `.string`: the only text child, if there is exactly one

  /** The whole page: its elements and `soup.get_text()`. */
  datatype Page = Page(elements: seq<Element>, text: string)

  /** `urljoin`, the netloc part of `urlparse`, and whether `json.loads`
      accepts a text. `None` stands for the `ValueError` that `urlparse`
      raises on a malformed authority (an unbalanced IPv6 bracket). */
  datatype Library = Library(
    urljoin: (string, string) -> Option<string>,
    netloc: string -> Option<string>,
    jsonParses: string -> bool)

  /** `e.get(name)` */
  function Attr(e: Element, name: string): (r: Option<string>) {
    if name in e.attrs then Some(e.attrs[name]) else None
  }

  /** `e.get(name, default)` */
  function AttrOr(e: Element, name: string, default: string): (r: string) {
    if name in e.attrs then e.attrs[name] else default
  }

  /** `' '.join(tokens)` */
  function JoinWords(ws: seq<string>): (r: string) {
    if ws == [] then "" else if |ws| == 1 then ws[0] else ws[0] + " " + JoinWords(ws[1..])
  }

  /** BeautifulSoup's `rel=value` filter on a multi-valued attribute: one of
      the tokens is the value, or the tokens joined by spaces are. */
  predicate HasRel(e: Element, value: string) {
    value in e.rel || (e.rel != [] && JoinWords(e.rel) == value)
  }

  predicate IsLinkRel(e: Element, value: string) {
    e.tag == "link" && HasRel(e, value)
  }

  /** `soup.find_all(tag)`: the elements with that tag, in document order. */
  function Tagged(doc: seq<Element>, tag: string): (r: seq<Element>)
    ensures |r| <= |doc|
    ensures forall e :: e in r <==> e in doc && e.tag == tag
  {
    if doc == [] then []
    else Tagged(doc[..|doc| - 1], tag) + (if doc[|doc| - 1].tag == tag then [doc[|doc| - 1]] else [])
  }

  /** `soup.find('link', rel=value)`: the index of the first such element. */
  function FindLink(doc: seq<Element>, value: string): (r: Option<nat>)
    ensures r.Some? ==> r.value < |doc| && IsLinkRel(doc[r.value], value)
    ensures r.Some? ==> forall j :: 0 <= j < r.value ==> !IsLinkRel(doc[j], value)
    ensures r.None? ==> forall j :: 0 <= j < |doc| ==> !IsLinkRel(doc[j], value)
  {
    if doc == [] then None
    else if IsLinkRel(doc[0], value) then Some(0)
    else match FindLink(doc[1..], value)
      case None => None
      case Some(j) => Some(j + 1)
  }

  /** A meta tag's key: its `name`, and its `property` only when `name` is absent. */
  function MetaKey(e: Element): (r: string)
    ensures "name" in e.attrs ==> r == e.attrs["name"]
    ensures "name" !in e.attrs ==> r == AttrOr(e, "property", "")
  {
    AttrOr(e, "name", AttrOr(e, "property", ""))
  }

  function MetaContent(e: Element): (r: string) {
    AttrOr(e, "content", "")
  }
}
