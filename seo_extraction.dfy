/** `extract_seo_metadata` (main.py:35-226) over the element sequence of a
    page, and the empty-default record `simple_web_scraper` stores when
    extraction raises (main.py:309-337). Each loop of the source is a method
    proved equal to a fold over the elements it has seen; the properties are
    lemmas about the folds. */
module SeoExtraction {
  import opened Wrappers
  import opened Text
  import opened Document
  import opened Fingerprint
  import opened Keywords
  import Rules

  datatype ImageData = ImageData(src: Option<string>, alt: string, title: string, width: Option<string>,
                                 height: Option<string>, loading: string, decoding: string)

  datatype LinkData = LinkData(href: string, fullUrl: string, text: string, title: string,
                               rel: seq<string>, target: string)

  datatype RssFeed = RssFeed(href: Option<string>, title: Option<string>, feedType: Option<string>)

  /** An entry of the older `analytics` list: the first signature a script shows. */
  datatype ScriptHit = ScriptHit(pattern: string, src: string, contentPreview: string)

  datatype PageSpeed = PageSpeed(totalImages: nat, imagesWithoutAlt: nat, totalScripts: nat,
                                 totalStylesheets: nat, inlineStyles: nat, totalLinks: nat)

  /** The dictionaries and fields the meta-tag loop fills. */
  datatype MetaState = MetaState(metaTags: map<string, string>, openGraph: map<string, string>,
                                 twitterCards: map<string, string>, robots: Option<string>,
                                 viewport: Option<string>, charset: Option<string>, language: Option<string>)

  datatype LinkState = LinkState(internal: seq<LinkData>, external: seq<LinkData>, social: seq<LinkData>)

  /** `seo_data`. `pageSpeed` and `detailedAnalytics` are `None` where the
      source stores an empty dict (only in the fallback record). */
  datatype SeoData = SeoData(
    metaTags: map<string, string>, openGraph: map<string, string>, twitterCards: map<string, string>,
    structuredData: seq<string>, headings: map<string, seq<string>>, images: seq<ImageData>,
    internalLinks: seq<LinkData>, externalLinks: seq<LinkData>,
    canonicalUrl: Option<string>, robotsDirective: Option<string>, language: Option<string>,
    charset: Option<string>, viewport: Option<string>, favicon: Option<string>, sitemap: Option<string>,
    rssFeeds: seq<RssFeed>, socialLinks: seq<LinkData>, analytics: seq<ScriptHit>,
    wordCount: nat, keywordDensity: seq<Entry>,
    pageSpeed: Option<PageSpeed>, detailedAnalytics: Option<AnalyticsData>)

  function Lookup(m: map<string, string>, k: string): Option<string> {
    if k in m then Some(m[k]) else None
  }

  // ---------------------------------------------------------------------
  // Meta tags (main.py:72-91)
  // ---------------------------------------------------------------------

  const EmptyMeta := MetaState(map[], map[], map[], None, None, None, None)

  /** One iteration of the meta-tag loop. */
  function MetaStep(st: MetaState, e: Element): MetaState {
    var name := MetaKey(e);
    var content := MetaContent(e);
    if name == "" then st
    else
      var st1 := st.(metaTags := st.metaTags[name := content]);
      if StartsWith(name, "og:") then st1.(openGraph := st1.openGraph[name := content])
      else if StartsWith(name, "twitter:") then st1.(twitterCards := st1.twitterCards[name := content])
      else if name == "robots" then st1.(robots := Some(content))
      else if name == "viewport" then st1.(viewport := Some(content))
      else if name == "charset" then st1.(charset := Some(content))
      else if name == "language" then st1.(language := Some(content))
      else st1
  }

  function MetaOf(metas: seq<Element>): MetaState {
    if metas == [] then EmptyMeta else MetaStep(MetaOf(metas[..|metas| - 1]), metas[|metas| - 1])
  }

  /** `open_graph` is the `og:` part of `meta_tags`. */
  ghost predicate OgView(st: MetaState) {
    (forall k :: k in st.openGraph <==> k in st.metaTags && StartsWith(k, "og:"))
    && (forall k :: k in st.openGraph ==> st.openGraph[k] == st.metaTags[k])
  }

  /** `twitter_cards` is the `twitter:` part of `meta_tags`. */
  ghost predicate TwitterView(st: MetaState) {
    (forall k :: k in st.twitterCards <==> k in st.metaTags && StartsWith(k, "twitter:"))
    && (forall k :: k in st.twitterCards ==> st.twitterCards[k] == st.metaTags[k])
  }

  /** The four single fields are the `meta_tags` entries under their own names. */
  ghost predicate SinglesView(st: MetaState) {
    st.robots == Lookup(st.metaTags, "robots")
    && st.viewport == Lookup(st.metaTags, "viewport")
    && st.charset == Lookup(st.metaTags, "charset")
    && st.language == Lookup(st.metaTags, "language")
  }

  /** Every bucket is a view of `meta_tags`, which has no empty key. */
  ghost predicate MetaConsistent(st: MetaState) {
    "" !in st.metaTags && OgView(st) && TwitterView(st) && SinglesView(st)
  }

  lemma MetaStepOg(st: MetaState, e: Element)
    requires OgView(st)
    ensures OgView(MetaStep(st, e))
  {
    var name := MetaKey(e);
    if name != "" && !StartsWith(name, "og:") {
      var st' := MetaStep(st, e);
      assert st'.openGraph == st.openGraph;
      forall k ensures k in st'.openGraph <==> k in st'.metaTags && StartsWith(k, "og:") {
        if k == name { } else { assert (k in st'.metaTags) == (k in st.metaTags); }
      }
    }
  }

  lemma MetaStepTwitter(st: MetaState, e: Element)
    requires TwitterView(st)
    ensures TwitterView(MetaStep(st, e))
  {
    var name := MetaKey(e);
    if name != "" {
      var st' := MetaStep(st, e);
      if StartsWith(name, "og:") {
        assert !StartsWith(name, "twitter:") by { assert name[0] == 'o'; }
      }
      if !StartsWith(name, "twitter:") {
        assert st'.twitterCards == st.twitterCards;
        forall k ensures k in st'.twitterCards <==> k in st'.metaTags && StartsWith(k, "twitter:") {
          if k == name { } else { assert (k in st'.metaTags) == (k in st.metaTags); }
        }
      } else {
        assert st'.twitterCards == st.twitterCards[name := MetaContent(e)];
      }
    }
  }

  lemma MetaStepSingles(st: MetaState, e: Element)
    requires SinglesView(st)
    ensures SinglesView(MetaStep(st, e))
  {
    var name := MetaKey(e);
    if name != "" && (StartsWith(name, "og:") || StartsWith(name, "twitter:")) {
      assert name != "robots" && name != "viewport" && name != "charset" && name != "language" by {
        assert name[0] == 'o' || name[0] == 't';
        if name[0] == 't' { assert StartsWith(name, "twitter:") && name[1] == 'w'; }
      }
    }
  }

  /** The step writes `meta_tags[name]` for a non-empty name and nothing else there. */
  lemma MetaStepTags(st: MetaState, e: Element)
    ensures MetaStep(st, e).metaTags
         == if MetaKey(e) == "" then st.metaTags else st.metaTags[MetaKey(e) := MetaContent(e)]
  {
  }

  lemma MetaStepConsistent(st: MetaState, e: Element)
    requires MetaConsistent(st)
    ensures MetaConsistent(MetaStep(st, e))
  {
    MetaStepTags(st, e);
    MetaStepOg(st, e);
    MetaStepTwitter(st, e);
    MetaStepSingles(st, e);
  }

  lemma {:induction false} MetaOfConsistent(metas: seq<Element>)
    ensures MetaConsistent(MetaOf(metas))
  {
    if metas != [] {
      MetaOfConsistent(metas[..|metas| - 1]);
      MetaStepConsistent(MetaOf(metas[..|metas| - 1]), metas[|metas| - 1]);
    }
  }

  /** The content of the last meta tag whose key is `k`, searching from the end. */
  function LastContent(metas: seq<Element>, k: string): Option<string> {
    if metas == [] then None
    else if MetaKey(metas[|metas| - 1]) == k then Some(MetaContent(metas[|metas| - 1]))
    else LastContent(metas[..|metas| - 1], k)
  }

  /** `meta_tags` maps each non-empty key to the content of its last tag:
      later duplicates overwrite earlier ones, empty keys are skipped. */
  lemma {:induction false} MetaLastWins(metas: seq<Element>, k: string)
    ensures Lookup(MetaOf(metas).metaTags, k) == (if k == "" then None else LastContent(metas, k))
  {
    if metas != [] {
      MetaLastWins(metas[..|metas| - 1], k);
      MetaStepTags(MetaOf(metas[..|metas| - 1]), metas[|metas| - 1]);
    }
  }

  method CollectMeta(metas: seq<Element>) returns (st: MetaState)
    ensures st == MetaOf(metas)
  {
    st := EmptyMeta;
    var i := 0;
    while i < |metas|
      invariant 0 <= i <= |metas|
      invariant st == MetaOf(metas[..i])
    {
      assert metas[..i + 1][..i] == metas[..i];
      var name := MetaKey(metas[i]);
      var content := MetaContent(metas[i]);
      if name != "" {
        st := st.(metaTags := st.metaTags[name := content]);
        if StartsWith(name, "og:") {
          st := st.(openGraph := st.openGraph[name := content]);
        } else if StartsWith(name, "twitter:") {
          st := st.(twitterCards := st.twitterCards[name := content]);
        } else if name == "robots" {
          st := st.(robots := Some(content));
        } else if name == "viewport" {
          st := st.(viewport := Some(content));
        } else if name == "charset" {
          st := st.(charset := Some(content));
        } else if name == "language" {
          st := st.(language := Some(content));
        }
      }
      i := i + 1;
    }
    assert metas[..i] == metas;
  }

  // ---------------------------------------------------------------------
  // Single links: canonical, favicon, sitemap (main.py:94-106)
  // ---------------------------------------------------------------------

  /** `soup.find('link', rel=value)` followed by `.get('href')`. */
  function LinkHref(doc: seq<Element>, value: string): Option<string> {
    match FindLink(doc, value)
    case None => None
    case Some(i) => Attr(doc[i], "href")
  }

  /** The favicon: the first `rel="icon"` link, else the first `rel="shortcut icon"` one. */
  function FaviconOf(doc: seq<Element>): (r: Option<string>)
    ensures FindLink(doc, "icon").Some? ==> r == Attr(doc[FindLink(doc, "icon").value], "href")
    ensures FindLink(doc, "icon").None? && FindLink(doc, "shortcut icon").Some? ==>
      r == Attr(doc[FindLink(doc, "shortcut icon").value], "href")
    ensures r.Some? ==> FindLink(doc, "icon").Some? || FindLink(doc, "shortcut icon").Some?
  {
    match FindLink(doc, "icon")
    case Some(i) => Attr(doc[i], "href")
    case None => LinkHref(doc, "shortcut icon")
  }

  // ---------------------------------------------------------------------
  // RSS feeds and JSON-LD (main.py:109-123)
  // ---------------------------------------------------------------------

  predicate IsFeed(e: Element) {
    e.tag == "link" && HasRel(e, "alternate")
    && Attr(e, "type") in [Some("application/rss+xml"), Some("application/atom+xml")]
  }

  function FeedOf(e: Element): RssFeed {
    RssFeed(Attr(e, "href"), Attr(e, "title"), Attr(e, "type"))
  }

  function FeedsOf(doc: seq<Element>): seq<RssFeed> {
    if doc == [] then []
    else FeedsOf(doc[..|doc| - 1]) + (if IsFeed(doc[|doc| - 1]) then [FeedOf(doc[|doc| - 1])] else [])
  }

  method CollectFeeds(doc: seq<Element>) returns (feeds: seq<RssFeed>)
    ensures feeds == FeedsOf(doc)
  {
    feeds := [];
    var i := 0;
    while i < |doc|
      invariant 0 <= i <= |doc|
      invariant feeds == FeedsOf(doc[..i])
    {
      assert doc[..i + 1][..i] == doc[..i];
      if IsFeed(doc[i]) {
        feeds := feeds + [FeedOf(doc[i])];
      }
      i := i + 1;
    }
    assert doc[..i] == doc;
  }

  /** The feeds are exactly the RSS or Atom alternate links, one per link. */
  lemma {:induction false} FeedsOfMembers(doc: seq<Element>)
    ensures |FeedsOf(doc)| <= |doc|
    ensures forall f :: f in FeedsOf(doc) <==> exists i :: 0 <= i < |doc| && IsFeed(doc[i]) && FeedOf(doc[i]) == f
  {
    if doc != [] {
      var init := doc[..|doc| - 1];
      FeedsOfMembers(init);
      forall f ensures f in FeedsOf(doc) <==> exists i :: 0 <= i < |doc| && IsFeed(doc[i]) && FeedOf(doc[i]) == f {
        if f in FeedsOf(init) {
          var i :| 0 <= i < |init| && IsFeed(init[i]) && FeedOf(init[i]) == f;
          assert doc[i] == init[i];
        }
        if exists i :: 0 <= i < |doc| && IsFeed(doc[i]) && FeedOf(doc[i]) == f {
          var i :| 0 <= i < |doc| && IsFeed(doc[i]) && FeedOf(doc[i]) == f;
          if i < |init| { assert init[i] == doc[i]; }
        }
      }
    }
  }

  /** The text of a JSON-LD script that `json.loads` accepts; a script without
      a single text child raises `TypeError` and is skipped like a parse error. */
  function StructuredOf(e: Element, lib: Library): Option<string> {
    if e.tag == "script" && Attr(e, "type") == Some("application/ld+json") && e.str.Some?
       && lib.jsonParses(e.str.value)
    then Some(e.str.value) else None
  }

  function StructuredAll(doc: seq<Element>, lib: Library): seq<string> {
    if doc == [] then []
    else
      var init := StructuredAll(doc[..|doc| - 1], lib);
      match StructuredOf(doc[|doc| - 1], lib)
      case Some(t) => init + [t]
      case None => init
  }

  /** The stored blocks are exactly the texts of the JSON-LD scripts that parse. */
  lemma {:induction false} StructuredMembers(doc: seq<Element>, lib: Library)
    ensures |StructuredAll(doc, lib)| <= |doc|
    ensures forall t :: t in StructuredAll(doc, lib) <==> exists i :: 0 <= i < |doc| && StructuredOf(doc[i], lib) == Some(t)
  {
    if doc != [] {
      var init := doc[..|doc| - 1];
      StructuredMembers(init, lib);
      forall t ensures t in StructuredAll(doc, lib) <==> exists i :: 0 <= i < |doc| && StructuredOf(doc[i], lib) == Some(t) {
        if t in StructuredAll(init, lib) {
          var i :| 0 <= i < |init| && StructuredOf(init[i], lib) == Some(t);
          assert doc[i] == init[i];
        }
        if exists i :: 0 <= i < |doc| && StructuredOf(doc[i], lib) == Some(t) {
          var i :| 0 <= i < |doc| && StructuredOf(doc[i], lib) == Some(t);
          if i < |init| { assert init[i] == doc[i]; }
        }
      }
    }
  }

  method CollectStructured(doc: seq<Element>, lib: Library) returns (data: seq<string>)
    ensures data == StructuredAll(doc, lib)
  {
    data := [];
    var i := 0;
    while i < |doc|
      invariant 0 <= i <= |doc|
      invariant data == StructuredAll(doc[..i], lib)
    {
      assert doc[..i + 1][..i] == doc[..i];
      match StructuredOf(doc[i], lib) {
        case Some(t) => data := data + [t];
        case None =>
      }
      i := i + 1;
    }
    assert doc[..i] == doc;
  }

  // ---------------------------------------------------------------------
  // Headings (main.py:126-128)
  // ---------------------------------------------------------------------

  function HeadingKey(level: nat): string
    requires 1 <= level <= 6
  {
    ['h', DigitChar(level)]
  }

  const HeadingKeys: set<string> := {"h1", "h2", "h3", "h4", "h5", "h6"}

  function TextsOf(es: seq<Element>): seq<string> {
    seq(|es|, i requires 0 <= i < |es| => es[i].text)
  }

  /** The headings dictionary the loop over levels 1..6 builds. */
  function HeadingsOf(doc: seq<Element>): map<string, seq<string>> {
    map k | k in HeadingKeys :: TextsOf(Tagged(doc, k))
  }

  method CollectHeadings(doc: seq<Element>) returns (headings: map<string, seq<string>>)
    ensures headings == HeadingsOf(doc)
  {
    headings := map[];
    var level := 1;
    while level < 7
      invariant 1 <= level <= 7
      invariant headings.Keys == set l | 1 <= l < level :: HeadingKey(l)
      invariant forall k :: k in headings ==> headings[k] == TextsOf(Tagged(doc, k))
    {
      var key := HeadingKey(level);
      headings := headings[key := TextsOf(Tagged(doc, key))];
      level := level + 1;
    }
    assert HeadingKey(1) == "h1" && HeadingKey(2) == "h2" && HeadingKey(3) == "h3";
    assert HeadingKey(4) == "h4" && HeadingKey(5) == "h5" && HeadingKey(6) == "h6";
    assert headings.Keys == HeadingKeys;
  }

  // ---------------------------------------------------------------------
  // Images (main.py:131-141)
  // ---------------------------------------------------------------------

  function ImageOf(e: Element): ImageData {
    ImageData(Attr(e, "src"), AttrOr(e, "alt", ""), AttrOr(e, "title", ""), Attr(e, "width"),
              Attr(e, "height"), AttrOr(e, "loading", ""), AttrOr(e, "decoding", ""))
  }

  function ImagesOf(imgs: seq<Element>): seq<ImageData> {
    seq(|imgs|, i requires 0 <= i < |imgs| => ImageOf(imgs[i]))
  }

  method CollectImages(imgs: seq<Element>) returns (images: seq<ImageData>)
    ensures images == ImagesOf(imgs)
  {
    images := [];
    var i := 0;
    while i < |imgs|
      invariant 0 <= i <= |imgs|
      invariant images == ImagesOf(imgs[..i])
    {
      images := images + [ImageOf(imgs[i])];
      i := i + 1;
    }
    assert imgs[..i] == imgs;
  }

  // ---------------------------------------------------------------------
  // Links (main.py:144-177)
  // ---------------------------------------------------------------------

  const SocialDomains: seq<string> := ["facebook.com", "twitter.com", "instagram.com", "linkedin.com",
                                       "youtube.com", "tiktok.com", "pinterest.com", "reddit.com"]

  /** `soup.find_all('a', href=True)` */
  predicate IsAnchor(e: Element) { e.tag == "a" && "href" in e.attrs }

  function Anchors(doc: seq<Element>): (r: seq<Element>)
    ensures forall i :: 0 <= i < |r| ==> IsAnchor(r[i])
  {
    if doc == [] then []
    else Anchors(doc[..|doc| - 1]) + (if IsAnchor(doc[|doc| - 1]) then [doc[|doc| - 1]] else [])
  }

  /** The three-way resolution: `/...` and relative hrefs go through `urljoin`,
      an href starting with `http` is kept as it is. */
  function ResolveHref(url: string, href: string, lib: Library): Option<string> {
    if StartsWith(href, "/") then lib.urljoin(url, href)
    else if StartsWith(href, "http") then Some(href)
    else lib.urljoin(url, href)
  }

  function LinkDataOf(e: Element, fullUrl: string): LinkData
    requires IsAnchor(e)
  {
    LinkData(e.attrs["href"], fullUrl, e.text, AttrOr(e, "title", ""), e.rel, AttrOr(e, "target", ""))
  }

  /** The netloc of an anchor's resolved URL, or `None` where resolving or parsing raises. */
  function AnchorNetloc(e: Element, url: string, lib: Library): Option<(string, string)>
    requires IsAnchor(e)
  {
    match ResolveHref(url, e.attrs["href"], lib)
    case None => None
    case Some(full) =>
      match lib.netloc(full)
      case None => None
      case Some(n) => Some((full, n))
  }

  /** One iteration of the link loop; `None` when it raises. */
  function LinkStep(st: LinkState, e: Element, url: string, base: string, lib: Library): Option<LinkState>
    requires IsAnchor(e)
  {
    match AnchorNetloc(e, url, lib)
    case None => None
    case Some((full, n)) =>
      var ld := LinkDataOf(e, full);
      if n == base then Some(st.(internal := st.internal + [ld]))
      else Some(st.(external := st.external + [ld],
                    social := if ContainsAny(n, SocialDomains) then st.social + [ld] else st.social))
  }

  function LinksOf(anchors: seq<Element>, url: string, base: string, lib: Library): (r: Option<LinkState>)
    requires forall i :: 0 <= i < |anchors| ==> IsAnchor(anchors[i])
    ensures r.None? <==> exists i :: 0 <= i < |anchors| && AnchorNetloc(anchors[i], url, lib).None?
  {
    if anchors == [] then Some(LinkState([], [], []))
    else
      var init := anchors[..|anchors| - 1];
      assert forall i :: 0 <= i < |init| ==> init[i] == anchors[i];
      match LinksOf(init, url, base, lib)
      case None => None
      case Some(st) => LinkStep(st, anchors[|anchors| - 1], url, base, lib)
  }

  /** What the link loop keeps true: internal links resolve to the page's
      netloc, external ones to another, social links are the external links
      whose netloc names one of the social domains, and an href starting with
      `http` is its own full URL. */
  ghost predicate LinksConsistent(st: LinkState, base: string, lib: Library) {
    (forall l :: l in st.internal ==> lib.netloc(l.fullUrl) == Some(base))
    && (forall l :: l in st.external ==> lib.netloc(l.fullUrl).Some? && lib.netloc(l.fullUrl) != Some(base))
    && (forall l :: l in st.social ==> l in st.external && ContainsAny(lib.netloc(l.fullUrl).value, SocialDomains))
    && (forall l :: l in st.external && ContainsAny(lib.netloc(l.fullUrl).value, SocialDomains) ==> l in st.social)
    && (forall l :: l in st.internal + st.external && StartsWith(l.href, "http") ==> l.fullUrl == l.href)
  }

  lemma LinkStepConsistent(st: LinkState, e: Element, url: string, base: string, lib: Library)
    requires IsAnchor(e) && LinksConsistent(st, base, lib) && LinkStep(st, e, url, base, lib).Some?
    ensures LinksConsistent(LinkStep(st, e, url, base, lib).value, base, lib)
    ensures var st' := LinkStep(st, e, url, base, lib).value;
      |st'.internal| + |st'.external| == |st.internal| + |st.external| + 1
  {
    var href := e.attrs["href"];
    if StartsWith(href, "http") {
      assert !StartsWith(href, "/") by { assert href[0] == 'h'; }
    }
    var st' := LinkStep(st, e, url, base, lib).value;
    assert forall l :: l in st'.internal + st'.external ==> l in st.internal + st.external || l == LinkDataOf(e, AnchorNetloc(e, url, lib).value.0);
  }

  /** Each listed link is classified by its netloc, and the two lists hold
      one record per anchor. */
  lemma {:induction false} LinksPartition(anchors: seq<Element>, url: string, base: string, lib: Library)
    requires forall i :: 0 <= i < |anchors| ==> IsAnchor(anchors[i])
    requires LinksOf(anchors, url, base, lib).Some?
    ensures var st := LinksOf(anchors, url, base, lib).value;
      LinksConsistent(st, base, lib) && |st.internal| + |st.external| == |anchors|
  {
    if anchors != [] {
      var init := anchors[..|anchors| - 1];
      assert forall i :: 0 <= i < |init| ==> init[i] == anchors[i];
      LinksPartition(init, url, base, lib);
      LinkStepConsistent(LinksOf(init, url, base, lib).value, anchors[|anchors| - 1], url, base, lib);
    }
  }

  /** Every anchor is an `<a href>` whose resolved URL parses. */
  predicate AllResolve(anchors: seq<Element>, url: string, lib: Library) {
    forall i :: 0 <= i < |anchors| ==> IsAnchor(anchors[i]) && AnchorNetloc(anchors[i], url, lib).Some?
  }

  /** The record the link loop builds for a resolvable anchor. */
  function AnchorRecord(e: Element, url: string, lib: Library): LinkData
    requires IsAnchor(e) && AnchorNetloc(e, url, lib).Some?
  {
    LinkDataOf(e, AnchorNetloc(e, url, lib).value.0)
  }

  /** The netloc of a resolvable anchor's full URL. */
  function AnchorHost(e: Element, url: string, lib: Library): string
    requires IsAnchor(e) && AnchorNetloc(e, url, lib).Some?
  {
    AnchorNetloc(e, url, lib).value.1
  }

  /** Reference for the link split: the records of the anchors whose netloc
      is the page's (`inside`) or another (`!inside`), in document order. */
  function LinkFilter(anchors: seq<Element>, url: string, base: string, lib: Library, inside: bool): seq<LinkData>
    requires AllResolve(anchors, url, lib)
  {
    if anchors == [] then []
    else
      var rest := LinkFilter(anchors[1..], url, base, lib, inside);
      if (AnchorHost(anchors[0], url, lib) == base) == inside then [AnchorRecord(anchors[0], url, lib)] + rest else rest
  }

  lemma {:induction false} LinkFilterSnoc(anchors: seq<Element>, e: Element, url: string, base: string, lib: Library, inside: bool)
    requires AllResolve(anchors, url, lib) && AllResolve(anchors + [e], url, lib)
    ensures IsAnchor(e) && AnchorNetloc(e, url, lib).Some?
    ensures LinkFilter(anchors + [e], url, base, lib, inside) ==
      LinkFilter(anchors, url, base, lib, inside)
      + (if (AnchorHost(e, url, lib) == base) == inside then [AnchorRecord(e, url, lib)] else [])
  {
    assert (anchors + [e])[|anchors|] == e;
    if anchors != [] {
      assert (anchors + [e])[1..] == anchors[1..] + [e];
      assert (anchors + [e])[0] == anchors[0];
      LinkFilterSnoc(anchors[1..], e, url, base, lib, inside);
    } else {
      assert (anchors + [e])[1..] == [];
    }
  }

  /** The loop's two lists are exactly the order-preserving filters of the
      anchors by whether their netloc is the page's. */
  lemma {:induction false} LinksFiltered(anchors: seq<Element>, url: string, base: string, lib: Library)
    requires forall i :: 0 <= i < |anchors| ==> IsAnchor(anchors[i])
    requires LinksOf(anchors, url, base, lib).Some?
    ensures AllResolve(anchors, url, lib)
    ensures LinksOf(anchors, url, base, lib).value.internal == LinkFilter(anchors, url, base, lib, true)
    ensures LinksOf(anchors, url, base, lib).value.external == LinkFilter(anchors, url, base, lib, false)
  {
    if anchors != [] {
      var init, e := anchors[..|anchors| - 1], anchors[|anchors| - 1];
      assert forall i :: 0 <= i < |init| ==> init[i] == anchors[i];
      assert init + [e] == anchors;
      LinksFiltered(init, url, base, lib);
      var st0 := LinksOf(init, url, base, lib).value;
      assert LinksOf(anchors, url, base, lib) == LinkStep(st0, e, url, base, lib);
      LinkFilterSnoc(init, e, url, base, lib, true);
      LinkFilterSnoc(init, e, url, base, lib, false);
      var r := AnchorRecord(e, url, lib);
      if AnchorHost(e, url, lib) == base {
        assert LinksOf(anchors, url, base, lib).value == st0.(internal := st0.internal + [r]);
      } else {
        assert LinksOf(anchors, url, base, lib).value.internal == st0.internal;
        assert LinksOf(anchors, url, base, lib).value.external == st0.external + [r];
      }
    }
  }

  /** Each anchor of the chosen class has its record in the filter, and the
      filter holds nothing else. */
  lemma {:induction false} LinkFilterMembers(anchors: seq<Element>, url: string, base: string, lib: Library, inside: bool)
    requires AllResolve(anchors, url, lib)
    ensures forall i :: 0 <= i < |anchors| && (AnchorHost(anchors[i], url, lib) == base) == inside ==>
      AnchorRecord(anchors[i], url, lib) in LinkFilter(anchors, url, base, lib, inside)
    ensures forall l :: l in LinkFilter(anchors, url, base, lib, inside) ==>
      exists i :: 0 <= i < |anchors| && l == AnchorRecord(anchors[i], url, lib)
                  && (AnchorHost(anchors[i], url, lib) == base) == inside
  {
    if anchors != [] {
      var tail := anchors[1..];
      assert forall i :: 0 <= i < |tail| ==> tail[i] == anchors[i + 1];
      LinkFilterMembers(tail, url, base, lib, inside);
      var f := LinkFilter(anchors, url, base, lib, inside);
      forall i | 0 <= i < |anchors| && (AnchorHost(anchors[i], url, lib) == base) == inside
        ensures AnchorRecord(anchors[i], url, lib) in f
      {
        if i > 0 { assert anchors[i] == tail[i - 1]; }
      }
      forall l | l in f
        ensures exists i :: 0 <= i < |anchors| && l == AnchorRecord(anchors[i], url, lib)
                            && (AnchorHost(anchors[i], url, lib) == base) == inside
      {
        if l in LinkFilter(tail, url, base, lib, inside) {
          var j :| 0 <= j < |tail| && l == AnchorRecord(tail[j], url, lib)
                   && (AnchorHost(tail[j], url, lib) == base) == inside;
          assert tail[j] == anchors[j + 1];
        } else {
          assert l == AnchorRecord(anchors[0], url, lib) && (AnchorHost(anchors[0], url, lib) == base) == inside;
        }
      }
    }
  }

  /** Every anchor lands in the internal list when its netloc is the page's,
      and in the external list otherwise, in document order; both lists hold
      nothing but anchor records. */
  lemma LinksSplit(anchors: seq<Element>, url: string, base: string, lib: Library)
    requires forall i :: 0 <= i < |anchors| ==> IsAnchor(anchors[i])
    requires LinksOf(anchors, url, base, lib).Some?
    ensures AllResolve(anchors, url, lib)
    ensures var st := LinksOf(anchors, url, base, lib).value;
      st.internal == LinkFilter(anchors, url, base, lib, true)
      && st.external == LinkFilter(anchors, url, base, lib, false)
      && (forall i :: 0 <= i < |anchors| ==>
            (AnchorRecord(anchors[i], url, lib) in st.internal <==> AnchorHost(anchors[i], url, lib) == base)
            && (AnchorRecord(anchors[i], url, lib) in st.external <==> AnchorHost(anchors[i], url, lib) != base))
      && (forall l :: l in st.internal + st.external ==>
            exists i :: 0 <= i < |anchors| && l == AnchorRecord(anchors[i], url, lib))
  {
    LinksFiltered(anchors, url, base, lib);
    LinksPartition(anchors, url, base, lib);
    LinkFilterMembers(anchors, url, base, lib, true);
    LinkFilterMembers(anchors, url, base, lib, false);
    var st := LinksOf(anchors, url, base, lib).value;
    forall i | 0 <= i < |anchors|
      ensures AnchorRecord(anchors[i], url, lib) in st.internal <==> AnchorHost(anchors[i], url, lib) == base
      ensures AnchorRecord(anchors[i], url, lib) in st.external <==> AnchorHost(anchors[i], url, lib) != base
    {
      var r := AnchorRecord(anchors[i], url, lib);
      assert lib.netloc(r.fullUrl) == Some(AnchorHost(anchors[i], url, lib));
    }
  }

  method CollectLinks(anchors: seq<Element>, url: string, base: string, lib: Library) returns (r: Option<LinkState>)
    requires forall i :: 0 <= i < |anchors| ==> IsAnchor(anchors[i])
    ensures r == LinksOf(anchors, url, base, lib)
  {
    var internal, external, social := [], [], [];
    var i := 0;
    while i < |anchors|
      invariant 0 <= i <= |anchors|
      invariant LinksOf(anchors[..i], url, base, lib) == Some(LinkState(internal, external, social))
    {
      assert anchors[..i + 1][..i] == anchors[..i];
      var e := anchors[i];
      var href := e.attrs["href"];
      var fullUrl: Option<string>;
      if StartsWith(href, "/") {
        fullUrl := lib.urljoin(url, href);
      } else if StartsWith(href, "http") {
        fullUrl := Some(href);
      } else {
        fullUrl := lib.urljoin(url, href);
      }
      if fullUrl.None? {
        return None;
      }
      var netloc := lib.netloc(fullUrl.value);
      if netloc.None? {
        return None;
      }
      var linkData := LinkDataOf(e, fullUrl.value);
      if netloc.value == base {
        internal := internal + [linkData];
      } else {
        external := external + [linkData];
        if ContainsAny(netloc.value, SocialDomains) {
          social := social + [linkData];
        }
      }
      i := i + 1;
    }
    assert anchors[..i] == anchors;
    r := Some(LinkState(internal, external, social));
  }

  // ---------------------------------------------------------------------
  // The older analytics list (main.py:180-194)
  // ---------------------------------------------------------------------

  const LegacyPatterns: seq<string> := ["google-analytics", "gtag", "ga(", "googletagmanager",
                                        "facebook", "fbq", "pixel", "hotjar", "mixpanel"]

  predicate ShowsPattern(sc: Script, p: string) {
    Contains(Lower(sc.content), p) || Contains(Lower(sc.src), p)
  }

  /** The first signature, from index `from` on, that the script shows. */
  function FirstPatternFrom(sc: Script, from: nat): (r: Option<nat>)
    requires from <= |LegacyPatterns|
    ensures r.Some? ==> from <= r.value < |LegacyPatterns| && ShowsPattern(sc, LegacyPatterns[r.value])
    ensures r.Some? ==> forall k :: from <= k < r.value ==> !ShowsPattern(sc, LegacyPatterns[k])
    ensures r.None? ==> forall k :: from <= k < |LegacyPatterns| ==> !ShowsPattern(sc, LegacyPatterns[k])
    decreases |LegacyPatterns| - from
  {
    if from == |LegacyPatterns| then None
    else if ShowsPattern(sc, LegacyPatterns[from]) then Some(from)
    else FirstPatternFrom(sc, from + 1)
  }

  /** The script shows at least one of the nine signatures. */
  predicate ShowsAnyPattern(sc: Script) {
    exists k :: 0 <= k < |LegacyPatterns| && ShowsPattern(sc, LegacyPatterns[k])
  }

  /** The entry `extract_seo_metadata` appends for one script, if any. */
  function HitOf(sc: Script): (r: Option<ScriptHit>)
    ensures r.Some? <==> ShowsAnyPattern(sc)
    ensures r.Some? ==> r.value.src == sc.src && ShowsPattern(sc, r.value.pattern)
  {
    match FirstPatternFrom(sc, 0)
    case None => None
    case Some(k) => Some(ScriptHit(LegacyPatterns[k], sc.src, Preview(sc.content)))
  }

  function HitsOf(scripts: seq<Script>): seq<ScriptHit> {
    if scripts == [] then []
    else
      var init := HitsOf(scripts[..|scripts| - 1]);
      match HitOf(scripts[|scripts| - 1])
      case Some(h) => init + [h]
      case None => init
  }

  /** At most one entry per script, and it names the first signature the script shows. */
  lemma {:induction false} HitsAtMostOnePerScript(scripts: seq<Script>)
    ensures |HitsOf(scripts)| <= |scripts|
    ensures forall h :: h in HitsOf(scripts) ==>
      exists i, k :: 0 <= i < |scripts| && 0 <= k < |LegacyPatterns| && h.pattern == LegacyPatterns[k]
                     && ShowsPattern(scripts[i], h.pattern) && h.src == scripts[i].src
                     && forall k' :: 0 <= k' < k ==> !ShowsPattern(scripts[i], LegacyPatterns[k'])
  {
    if scripts != [] {
      var init := scripts[..|scripts| - 1];
      HitsAtMostOnePerScript(init);
      forall h | h in HitsOf(scripts)
        ensures exists i, k :: 0 <= i < |scripts| && 0 <= k < |LegacyPatterns| && h.pattern == LegacyPatterns[k]
                     && ShowsPattern(scripts[i], h.pattern) && h.src == scripts[i].src
                     && forall k' :: 0 <= k' < k ==> !ShowsPattern(scripts[i], LegacyPatterns[k'])
      {
        if h in HitsOf(init) {
          var i, k :| 0 <= i < |init| && 0 <= k < |LegacyPatterns| && h.pattern == LegacyPatterns[k]
                     && ShowsPattern(init[i], h.pattern) && h.src == init[i].src
                     && forall k' :: 0 <= k' < k ==> !ShowsPattern(init[i], LegacyPatterns[k']);
          assert init[i] == scripts[i];
        } else {
          var k := FirstPatternFrom(scripts[|scripts| - 1], 0).value;
          assert h.pattern == LegacyPatterns[k];
        }
      }
    }
  }

  /** No script showing a signature is skipped: one entry per such script,
      and each such script's entry is in the list. */
  lemma {:induction false} HitsComplete(scripts: seq<Script>)
    ensures |HitsOf(scripts)| == Rules.CountIf(scripts, ShowsAnyPattern)
    ensures forall i :: 0 <= i < |scripts| && ShowsAnyPattern(scripts[i]) ==> HitOf(scripts[i]).value in HitsOf(scripts)
  {
    if scripts != [] {
      var n := |scripts| - 1;
      var init := scripts[..n];
      HitsComplete(init);
      var extra := HitsSnoc(scripts);
      forall i | 0 <= i < |scripts| && ShowsAnyPattern(scripts[i]) ensures HitOf(scripts[i]).value in HitsOf(scripts) {
        if i < n {
          assert init[i] == scripts[i];
          assert HitOf(scripts[i]).value in HitsOf(init);
        } else {
          assert i == n;
          assert HitOf(scripts[n]).Some?;
          assert extra == [HitOf(scripts[n]).value];
        }
      }
    }
  }

  /** The last script adds its own entry, if any, to those of the others. */
  lemma HitsSnoc(scripts: seq<Script>) returns (extra: seq<ScriptHit>)
    requires scripts != []
    ensures extra == (if HitOf(scripts[|scripts| - 1]).Some? then [HitOf(scripts[|scripts| - 1]).value] else [])
    ensures HitsOf(scripts) == HitsOf(scripts[..|scripts| - 1]) + extra
  {
    var last := scripts[|scripts| - 1];
    extra := if HitOf(last).Some? then [HitOf(last).value] else [];
  }

  method CollectHits(scripts: seq<Script>) returns (hits: seq<ScriptHit>)
    ensures hits == HitsOf(scripts)
  {
    hits := [];
    var i := 0;
    while i < |scripts|
      invariant 0 <= i <= |scripts|
      invariant hits == HitsOf(scripts[..i])
    {
      assert scripts[..i + 1][..i] == scripts[..i];
      var sc := scripts[i];
      var k := 0;
      while k < |LegacyPatterns|
        invariant 0 <= k <= |LegacyPatterns|
        invariant FirstPatternFrom(sc, 0) == FirstPatternFrom(sc, k)
      {
        if ShowsPattern(sc, LegacyPatterns[k]) {
          break;
        }
        k := k + 1;
      }
      if k < |LegacyPatterns| {
        hits := hits + [ScriptHit(LegacyPatterns[k], sc.src, Preview(sc.content))];
      }
      i := i + 1;
    }
    assert scripts[..i] == scripts;
  }

  // ---------------------------------------------------------------------
  // Counts (main.py:217-224) and the whole record
  // ---------------------------------------------------------------------

  function CountWhere(doc: seq<Element>, p: Element -> bool): (n: nat)
    ensures n <= |doc|
  {
    if doc == [] then 0 else CountWhere(doc[..|doc| - 1], p) + (if p(doc[|doc| - 1]) then 1 else 0)
  }

  function CountAltless(images: seq<ImageData>): (n: nat)
    ensures n <= |images|
  {
    if images == [] then 0 else CountAltless(images[..|images| - 1]) + (if images[|images| - 1].alt == "" then 1 else 0)
  }

  function PageSpeedOf(doc: seq<Element>, images: seq<ImageData>, links: LinkState): PageSpeed {
    PageSpeed(|images|, CountAltless(images), |Tagged(doc, "script")|,
              CountWhere(doc, (e: Element) => IsLinkRel(e, "stylesheet")), CountWhere(doc, (e: Element) => "style" in e.attrs),
              |links.internal| + |links.external|)
  }

  /** What `extract_seo_metadata` returns, or `None` where it raises. */
  function SeoMetadata(page: Page, url: string, lib: Library): Option<SeoData> {
    var doc := page.elements;
    match lib.netloc(url)
    case None => None
    case Some(base) =>
      match LinksOf(Anchors(doc), url, base, lib)
      case None => None
      case Some(links) =>
        var meta := MetaOf(Tagged(doc, "meta"));
        var images := ImagesOf(Tagged(doc, "img"));
        Some(SeoData(meta.metaTags, meta.openGraph, meta.twitterCards, StructuredAll(doc, lib), HeadingsOf(doc),
                     images, links.internal, links.external, LinkHref(doc, "canonical"), meta.robots,
                     meta.language, meta.charset, meta.viewport, FaviconOf(doc), LinkHref(doc, "sitemap"),
                     FeedsOf(doc), links.social, HitsOf(ScriptsOf(doc)), |Tokens(page.text)|,
                     KeywordDensity(page.text), Some(PageSpeedOf(doc, images, links)),
                     Some(AnalyticsOf(doc))))
  }

  /** The record `simple_web_scraper` stores when extraction raises. */
  const Fallback := SeoData(map[], map[], map[], [], map[], [], [], [], None, None, None, None, None, None, None,
                            [], [], [], 0, [], None, None)

  /** The `seo_metadata` a successful fetch carries. */
  function ScrapedSeo(page: Page, url: string, lib: Library): SeoData {
    match SeoMetadata(page, url, lib)
    case Some(d) => d
    case None => Fallback
  }

  /** `extract_seo_metadata`, section by section. */
  method ExtractSeoMetadata(page: Page, url: string, lib: Library) returns (r: Option<SeoData>)
    ensures r == SeoMetadata(page, url, lib)
  {
    var doc := page.elements;
    var meta := CollectMeta(Tagged(doc, "meta"));
    var canonical := LinkHref(doc, "canonical");
    var favicon := FaviconOf(doc);
    var sitemap := LinkHref(doc, "sitemap");
    var feeds := CollectFeeds(doc);
    var structured := CollectStructured(doc, lib);
    var headings := CollectHeadings(doc);
    var images := CollectImages(Tagged(doc, "img"));
    var base := lib.netloc(url);
    if base.None? {
      return None;
    }
    var links := CollectLinks(Anchors(doc), url, base.value, lib);
    if links.None? {
      return None;
    }
    var hits := CollectHits(ScriptsOf(doc));
    var detailed := ExtractAnalyticsData(doc);
    var speed := PageSpeedOf(doc, images, links.value);
    r := Some(SeoData(meta.metaTags, meta.openGraph, meta.twitterCards, structured, headings, images,
                      links.value.internal, links.value.external, canonical, meta.robots, meta.language,
                      meta.charset, meta.viewport, favicon, sitemap, feeds, links.value.social, hits,
                      |Tokens(page.text)|, KeywordDensity(page.text), Some(speed), Some(detailed)));
  }

  // ---------------------------------------------------------------------
  // Properties of the whole record
  // ---------------------------------------------------------------------

  /** The fields of a successful extraction, named by the folds that compute them. */
  lemma SeoFields(page: Page, url: string, lib: Library)
    requires SeoMetadata(page, url, lib).Some?
    ensures var d := SeoMetadata(page, url, lib).value; var doc := page.elements;
      var links := LinksOf(Anchors(doc), url, lib.netloc(url).value, lib).value;
      lib.netloc(url).Some? && LinksOf(Anchors(doc), url, lib.netloc(url).value, lib).Some?
      && d.headings == HeadingsOf(doc)
      && d.metaTags == MetaOf(Tagged(doc, "meta")).metaTags
      && d.openGraph == MetaOf(Tagged(doc, "meta")).openGraph
      && d.twitterCards == MetaOf(Tagged(doc, "meta")).twitterCards
      && d.robotsDirective == MetaOf(Tagged(doc, "meta")).robots
      && d.internalLinks == links.internal && d.externalLinks == links.external && d.socialLinks == links.social
      && d.wordCount == |Tokens(page.text)| && d.keywordDensity == KeywordDensity(page.text)
      && d.pageSpeed == Some(PageSpeedOf(doc, ImagesOf(Tagged(doc, "img")), links))
  {
  }

  /** A successful extraction has exactly the heading keys h1..h6; the
      fallback record has none. */
  lemma HeadingKeysExact(page: Page, url: string, lib: Library)
    ensures ScrapedSeo(page, url, lib).headings.Keys == HeadingKeys <==> SeoMetadata(page, url, lib).Some?
    ensures ScrapedSeo(page, url, lib).headings.Keys == {} <==> SeoMetadata(page, url, lib).None?
  {
    assert "h1" in HeadingKeys;
  }

  /** Each heading list holds the stripped texts of that level's elements, in document order. */
  lemma HeadingsInOrder(page: Page, url: string, lib: Library, level: nat)
    requires 1 <= level <= 6 && SeoMetadata(page, url, lib).Some?
    ensures var h := SeoMetadata(page, url, lib).value.headings; var es := Tagged(page.elements, HeadingKey(level));
      HeadingKey(level) in h && |h[HeadingKey(level)]| == |es|
      && forall i :: 0 <= i < |es| ==> h[HeadingKey(level)][i] == es[i].text
  {
    SeoFields(page, url, lib);
    HeadingKeyIn(level);
  }

  lemma HeadingKeyIn(level: nat)
    requires 1 <= level <= 6
    ensures HeadingKey(level) in HeadingKeys
  {
    if level == 1 { assert HeadingKey(1) == "h1"; }
    else if level == 2 { assert HeadingKey(2) == "h2"; }
    else if level == 3 { assert HeadingKey(3) == "h3"; }
    else if level == 4 { assert HeadingKey(4) == "h4"; }
    else if level == 5 { assert HeadingKey(5) == "h5"; }
    else { assert HeadingKey(6) == "h6"; }
  }

  /** Links: the internal and external lists are the anchors' records split
      by netloc equality in document order, so every anchor lands in exactly
      one; social links are external, and `total_links` counts both lists. */
  lemma LinkClassification(page: Page, url: string, lib: Library)
    requires SeoMetadata(page, url, lib).Some?
    ensures var d := SeoMetadata(page, url, lib).value; var base := lib.netloc(url).value;
      |d.internalLinks| + |d.externalLinks| == |Anchors(page.elements)|
      && (forall l :: l in d.internalLinks ==> lib.netloc(l.fullUrl) == Some(base))
      && (forall l :: l in d.externalLinks ==> lib.netloc(l.fullUrl).Some? && lib.netloc(l.fullUrl) != Some(base))
      && (forall l :: l in d.socialLinks ==> l in d.externalLinks)
      && (forall l :: l in d.internalLinks + d.externalLinks && StartsWith(l.href, "http") ==> l.fullUrl == l.href)
      && d.pageSpeed.Some? && d.pageSpeed.value.totalLinks == |d.internalLinks| + |d.externalLinks|
    ensures var d := SeoMetadata(page, url, lib).value; var base := lib.netloc(url).value; var a := Anchors(page.elements);
      AllResolve(a, url, lib)
      && d.internalLinks == LinkFilter(a, url, base, lib, true)
      && d.externalLinks == LinkFilter(a, url, base, lib, false)
      && (forall i :: 0 <= i < |a| ==>
            (AnchorRecord(a[i], url, lib) in d.internalLinks <==> AnchorHost(a[i], url, lib) == base)
            && (AnchorRecord(a[i], url, lib) in d.externalLinks <==> AnchorHost(a[i], url, lib) != base))
  {
    SeoFields(page, url, lib);
    LinksPartition(Anchors(page.elements), url, lib.netloc(url).value, lib);
    LinksSplit(Anchors(page.elements), url, lib.netloc(url).value, lib);
  }

  /** Extraction raises exactly when the page URL or one anchor cannot be resolved and parsed. */
  lemma ExtractionFailure(page: Page, url: string, lib: Library)
    ensures SeoMetadata(page, url, lib).None? <==>
      lib.netloc(url).None?
      || exists i :: 0 <= i < |Anchors(page.elements)| && AnchorNetloc(Anchors(page.elements)[i], url, lib).None?
  {
    if lib.netloc(url).Some? {
      SeoMetadataNone(page, url, lib);
    }
  }

  lemma SeoMetadataNone(page: Page, url: string, lib: Library)
    requires lib.netloc(url).Some?
    ensures SeoMetadata(page, url, lib).None? <==> LinksOf(Anchors(page.elements), url, lib.netloc(url).value, lib).None?
  {
  }

  /** The word count counts every token, stop words included, and the keyword
      table is computed from the same tokens. */
  lemma WordStatistics(page: Page, url: string, lib: Library)
    requires SeoMetadata(page, url, lib).Some?
    ensures var d := SeoMetadata(page, url, lib).value;
      d.wordCount == SumCounts(Frequencies(Tokens(page.text)))
      && |d.keywordDensity| <= TableSize
      && forall i :: 0 <= i < |d.keywordDensity| ==> Kept(d.keywordDensity[i])
  {
    SeoFields(page, url, lib);
    WordCountIsTotal(Tokens(page.text));
    KeywordRows(page.text);
  }

  /** The meta buckets are views of `meta_tags`, and `meta_tags` keeps the last tag per key. */
  lemma MetaBuckets(page: Page, url: string, lib: Library, k: string)
    requires SeoMetadata(page, url, lib).Some?
    ensures var d := SeoMetadata(page, url, lib).value;
      Lookup(d.metaTags, k) == (if k == "" then None else LastContent(Tagged(page.elements, "meta"), k))
      && (k in d.openGraph <==> k in d.metaTags && StartsWith(k, "og:"))
      && (k in d.twitterCards <==> k in d.metaTags && StartsWith(k, "twitter:"))
      && d.robotsDirective == Lookup(d.metaTags, "robots")
  {
    SeoFields(page, url, lib);
    MetaOfConsistent(Tagged(page.elements, "meta"));
    MetaLastWins(Tagged(page.elements, "meta"), k);
  }
}
