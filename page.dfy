/** The already-fetched response the detector inspects: the status code,
    the headers, the body (`response.text`), the document's visible text
    (`soup.text`) and the parsed elements in document order (tag name plus
    attribute map, as the HTML parser produces them). */
module Page {
  import opened Wrappers
  import opened Text

  datatype Element = Element(tag: string, attrs: map<string, string>)

  /** Header names are stored lower-cased, so that a lookup is
      case-insensitive as in the HTTP client's header dictionary. */
  datatype Response = Response(
    status: int,
    headers: map<string, string>,
    body: string,
    text: string,
    elements: seq<Element>)

  /** `name in response.headers` */
  predicate HasHeader(headers: map<string, string>, name: string) {
    Lower(name) in headers
  }

  /** `response.headers.get(name)` */
  function Header(headers: map<string, string>, name: string): Option<string> {
    if HasHeader(headers, name) then Some(headers[Lower(name)]) else None
  }

  /** `element.get(key, default)` */
  function Attr(e: Element, key: string, default: string): string {
    if key in e.attrs then e.attrs[key] else default
  }

  /** True when `e.get(key) == value`. */
  predicate AttrIs(e: Element, key: string, value: string) {
    key in e.attrs && e.attrs[key] == value
  }

  /** A `<meta name="generator">` element; the name comparison is exact. */
  predicate IsGeneratorMeta(e: Element) {
    e.tag == "meta" && AttrIs(e, "name", "generator")
  }

  /** A `<script>` element with a `src` attribute. */
  predicate IsSourcedScript(e: Element) {
    e.tag == "script" && "src" in e.attrs
  }

  /** A `<link>` element whose `rel` lists `stylesheet`: the parser splits
      `rel` into words at any whitespace. */
  predicate IsStylesheet(e: Element) {
    e.tag == "link" && "rel" in e.attrs && HasToken(e.attrs["rel"], "stylesheet")
  }

  /** A tab separates `rel` words as a space does. */
  lemma TabSeparatedStylesheet()
    ensures IsStylesheet(Element("link", map["rel" := "preload\tstylesheet"]))
  {
    var rel := "preload\tstylesheet";
    assert |rel| == 18 && rel[8..8 + |"stylesheet"|] == "stylesheet";
    assert IsSpace(rel[7]);
    assert TokenAt(rel, "stylesheet", 8);
    assert Element("link", map["rel" := rel]).attrs["rel"] == rel;
  }

  /** A longer word that begins with `stylesheet` is not the word itself. */
  lemma LongerWordIsNotStylesheet()
    ensures !IsStylesheet(Element("link", map["rel" := "stylesheets"]))
  {
    var rel := "stylesheets";
    assert !IsSpace(rel[10]);
    assert rel[1..11] != "stylesheet" by { assert rel[1..11][0] == 't'; }
  }

  /** Some element has tag `tag` and an attribute `key` matching the
      regular expression `pattern`: `soup.find(tag, key=re.compile(pattern))`. */
  predicate FindByRegex(elems: seq<Element>, tag: string, key: string, pattern: string) {
    exists k :: 0 <= k < |elems| && elems[k].tag == tag && key in elems[k].attrs
      && RegexSearch(pattern, elems[k].attrs[key])
  }

  /** Some element has tag `tag` and `key` equal to `value`:
      `soup.find(tag, key=value)`. */
  predicate FindByValue(elems: seq<Element>, tag: string, key: string, value: string) {
    exists k :: 0 <= k < |elems| && elems[k].tag == tag && AttrIs(elems[k], key, value)
  }
}
