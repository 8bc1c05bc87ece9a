/** `analyze_scraped_content` (main.py:625-799) with the three routines it
    calls: `calculate_performance_score` (main.py:801-819),
    `identify_optimization_opportunities` (main.py:821-843) and
    `generate_recommendations` (main.py:845-883). Every ratio the source
    computes as a float is kept as the exact quotient of two naturals and
    compared by cross-multiplication. */
module ContentAnalysis {
  import opened Wrappers
  import opened Text
  import opened Rules
  import opened Document
  import opened SeoExtraction

  // ---------------------------------------------------------------------
  // The scraped record the analysis reads
  // ---------------------------------------------------------------------

  datatype CssContent = CssContent(inlineStyles: seq<string>, internalStylesheets: seq<string>,
                                   externalStylesheets: seq<string>)

  datatype JsContent = JsContent(inlineScripts: seq<string>, externalScripts: seq<string>)

  /** What `simple_web_scraper` returns for a fetched page. `title` is `None`
      where `soup.title.string` is None. */
  datatype Scraped = Scraped(title: Option<string>, htmlContent: string, css: CssContent, js: JsContent,
                             seo: SeoData)

  /** `soup.title.string if soup.title else "No title found"` (main.py:252):
      the `.string` of the first title element. */
  function PageTitle(doc: seq<Element>): (r: Option<string>)
    ensures (forall e :: e in doc ==> e.tag != "title") ==> r == Some("No title found")
    ensures (exists e :: e in doc && e.tag == "title") ==> r == Tagged(doc, "title")[0].str
  {
    var ts := Tagged(doc, "title");
    if ts == [] then Some("No title found") else ts[0].str
  }

  /** A float the source obtains by one division, as the exact quotient num/den. */
  datatype Fraction = Fraction(num: nat, den: nat)

  /** `f < k` */
  predicate Below(f: Fraction, k: nat) { f.num < k * f.den }

  /** `f > 0.5` */
  predicate AboveHalf(f: Fraction) { 2 * f.num > f.den }

  /** Python truthiness of an optional string. */
  predicate Truthy(o: Option<string>) { o.Some? && o.value != "" }

  // ---------------------------------------------------------------------
  // content_overview (main.py:646-656)
  // ---------------------------------------------------------------------

  datatype Overview = Overview(totalCharacters: nat, totalWords: nat, title: Option<string>, hasTitle: bool,
                               titleLength: nat, titleOptimal: bool)

  /** The overview as written: `len(None)` raises when the title is None. */
  function OverviewAsWritten(sd: Scraped): (r: Option<Overview>)
    ensures r.None? <==> sd.title.None?
  {
    match sd.title
    case None => None
    case Some(t) => Some(Overview(|sd.htmlContent|, |Runs(sd.htmlContent, NotSpace)|, sd.title, t != "", |t|,
                                  50 <= |t| <= 60))
  }

  /** The overview with a missing title measured as the empty title. */
  function OverviewOf(sd: Scraped): (r: Overview)
    ensures r.hasTitle <==> r.titleLength > 0
    ensures r.titleOptimal <==> 50 <= r.titleLength <= 60
    ensures sd.title.Some? ==> OverviewAsWritten(sd) == Some(r)
    ensures sd.title.None? ==> r.titleLength == 0 && !r.titleOptimal
  {
    var t := sd.title.GetOr("");
    Overview(|sd.htmlContent|, |Runs(sd.htmlContent, NotSpace)|, sd.title, t != "", |t|, 50 <= |t| <= 60)
  }

  /** A page whose title element has no single text child makes the
      overview raise; the corrected overview reports an untitled page. */
  lemma TitleWithoutTextRaises(html: string, css: CssContent, js: JsContent, seo: SeoData)
    ensures var doc := [Element("title", map[], [], "", None)];
      var sd := Scraped(PageTitle(doc), html, css, js, seo);
      OverviewAsWritten(sd) == None && !OverviewOf(sd).hasTitle
  {
    var doc := [Element("title", map[], [], "", None)];
    assert doc[0] in doc;
  }

  // ---------------------------------------------------------------------
  // seo_analysis (main.py:658-671)
  // ---------------------------------------------------------------------

  datatype Level = High | Medium | Low

  datatype SeoAnalysis = SeoAnalysis(metaTagsCount: nat, openGraphTags: nat, twitterCards: nat,
                                     structuredDataBlocks: nat, canonicalUrl: bool, robotsDirective: bool,
                                     favicon: bool, sitemap: bool, wordCount: nat, contentRichness: Level)

  function ContentRichness(words: nat): (r: Level)
    ensures r == High <==> words > 1000
    ensures r == Low <==> words <= 300
  {
    if words > 1000 then High else if words > 300 then Medium else Low
  }

  function SeoAnalysisOf(seo: SeoData): SeoAnalysis {
    SeoAnalysis(|seo.metaTags|, |seo.openGraph|, |seo.twitterCards|, |seo.structuredData|,
                Truthy(seo.canonicalUrl), Truthy(seo.robotsDirective), Truthy(seo.favicon), Truthy(seo.sitemap),
                seo.wordCount, ContentRichness(seo.wordCount))
  }

  // ---------------------------------------------------------------------
  // technical_analysis (main.py:673-686)
  // ---------------------------------------------------------------------

  datatype Technical = Technical(inlineStyles: nat, internalStylesheets: nat, externalStylesheets: nat,
                                 inlineScripts: nat, externalScripts: nat, totalScripts: nat, totalStyles: nat,
                                 usesExternalResources: bool, hasInlineCode: bool)

  function TechnicalOf(css: CssContent, js: JsContent): (r: Technical)
    ensures r.inlineStyles == |css.inlineStyles| && r.internalStylesheets == |css.internalStylesheets|
    ensures r.externalStylesheets == |css.externalStylesheets|
    ensures r.inlineScripts == |js.inlineScripts| && r.externalScripts == |js.externalScripts|
    ensures r.totalScripts == r.inlineScripts + r.externalScripts
    ensures r.totalStyles == r.inlineStyles + r.internalStylesheets + r.externalStylesheets
    ensures r.usesExternalResources <==> r.externalStylesheets > 0 || r.externalScripts > 0
    ensures r.hasInlineCode <==> r.inlineStyles > 0 || r.inlineScripts > 0
  {
    Technical(|css.inlineStyles|, |css.internalStylesheets|, |css.externalStylesheets|,
              |js.inlineScripts|, |js.externalScripts|, |js.inlineScripts| + |js.externalScripts|,
              |css.inlineStyles| + |css.internalStylesheets| + |css.externalStylesheets|,
              css.externalStylesheets != [] || js.externalScripts != [],
              css.inlineStyles != [] || js.inlineScripts != [])
  }

  // ---------------------------------------------------------------------
  // content_categorization (main.py:688-724)
  // ---------------------------------------------------------------------

  datatype ContentType = Unknown | SimplePage | LandingPage | ContentRichPage | ArticleOrBlogPost | ProductOrServicePage

  datatype Depth = Deep | MediumDepth | Shallow

  datatype Categorization = Categorization(contentType: ContentType, headingStructure: map<string, nat>,
                                           totalHeadings: nat, hasH1: bool, hasH2: bool, hasH3: bool,
                                           hierarchyOptimal: bool, depth: Depth)

  /** `len(headings.get(f'h{level}', []))` */
  function HeadingCount(h: map<string, seq<string>>, level: nat): nat
    requires 1 <= level <= 6
  {
    var k := HeadingKey(level);
    if k in h then |h[k]| else 0
  }

  /** The number of headings over the six levels. */
  function TotalHeadings(h: map<string, seq<string>>): nat {
    HeadingCount(h, 1) + HeadingCount(h, 2) + HeadingCount(h, 3) + HeadingCount(h, 4) + HeadingCount(h, 5)
    + HeadingCount(h, 6)
  }

  function StructureKey(level: nat): string
    requires 1 <= level <= 6
  {
    ['H', DigitChar(level)]
  }

  /** `heading_structure`: the levels that have headings, with their counts. */
  function HeadingStructure(h: map<string, seq<string>>): (r: map<string, nat>)
    ensures forall level :: 1 <= level <= 6 ==>
      (StructureKey(level) in r <==> HeadingCount(h, level) > 0)
      && (StructureKey(level) in r ==> r[StructureKey(level)] == HeadingCount(h, level))
  {
    map level: nat | 1 <= level <= 6 && HeadingCount(h, level) > 0 :: StructureKey(level) := HeadingCount(h, level)
  }

  /** The if/elif chain that names the kind of page. */
  function ContentTypeOf(h: map<string, seq<string>>): (r: ContentType)
    ensures r == SimplePage <==> TotalHeadings(h) == 0
    ensures r == LandingPage <==> TotalHeadings(h) > 0 && HeadingCount(h, 1) == 1 && TotalHeadings(h) <= 5
    ensures r == ContentRichPage <==> TotalHeadings(h) > 10
    ensures r == ArticleOrBlogPost <==>
      0 < TotalHeadings(h) <= 10 && !(HeadingCount(h, 1) == 1 && TotalHeadings(h) <= 5) && HeadingCount(h, 2) > 3
    ensures r == ProductOrServicePage <==> TotalHeadings(h) <= 10 && HeadingCount(h, 2) <= 3 && HeadingCount(h, 3) > 5
    ensures r == Unknown <==>
      0 < TotalHeadings(h) <= 10 && !(HeadingCount(h, 1) == 1 && TotalHeadings(h) <= 5)
      && HeadingCount(h, 2) <= 3 && HeadingCount(h, 3) <= 5
    ensures r == ArticleOrBlogPost ==> 4 <= TotalHeadings(h)
    ensures r == ProductOrServicePage ==> 6 <= TotalHeadings(h)
  {
    var total := TotalHeadings(h);
    if total == 0 then SimplePage
    else if HeadingCount(h, 1) == 1 && total <= 5 then LandingPage
    else if total > 10 then ContentRichPage
    else if HeadingCount(h, 2) > 3 then ArticleOrBlogPost
    else if HeadingCount(h, 3) > 5 then ProductOrServicePage
    else Unknown
  }

  function DepthOf(total: nat): (r: Depth)
    ensures r == Deep <==> total > 15
    ensures r == Shallow <==> total <= 5
  {
    if total > 15 then Deep else if total > 5 then MediumDepth else Shallow
  }

  function CategorizationOf(h: map<string, seq<string>>): Categorization {
    Categorization(ContentTypeOf(h), HeadingStructure(h), TotalHeadings(h), HeadingCount(h, 1) > 0,
                   HeadingCount(h, 2) > 0, HeadingCount(h, 3) > 0,
                   HeadingCount(h, 1) == 1 && HeadingCount(h, 2) > 0, DepthOf(TotalHeadings(h)))
  }

  // ---------------------------------------------------------------------
  // link_analysis (main.py:726-770)
  // ---------------------------------------------------------------------

  datatype Category = Navigation | ContentLink | SocialLink | ExternalReference | CallToAction

  const NavigationWords: seq<string> := ["home", "menu", "about", "contact", "services"]
  const ActionWords: seq<string> := ["read more", "learn more", "click here", "view"]
  const SocialWords: seq<string> := ["facebook", "twitter", "instagram", "linkedin", "youtube"]

  /** The first test a link passes, in the order the source tries them. */
  function CategoryOf(l: LinkData, external: seq<LinkData>): (c: Category)
    ensures c == ExternalReference ==> l in external
  {
    var text := Lower(l.text);
    var href := Lower(l.href);
    if ContainsAny(text, NavigationWords) then Navigation
    else if ContainsAny(text, ActionWords) then CallToAction
    else if ContainsAny(href, SocialWords) then SocialLink
    else if l in external then ExternalReference
    else ContentLink
  }

  datatype Categories = Categories(navigation: seq<LinkData>, content: seq<LinkData>, social: seq<LinkData>,
                                   externalReferences: seq<LinkData>, callsToAction: seq<LinkData>)

  function File(cs: Categories, c: Category, l: LinkData): Categories {
    match c
    case Navigation => cs.(navigation := cs.navigation + [l])
    case ContentLink => cs.(content := cs.content + [l])
    case SocialLink => cs.(social := cs.social + [l])
    case ExternalReference => cs.(externalReferences := cs.externalReferences + [l])
    case CallToAction => cs.(callsToAction := cs.callsToAction + [l])
  }

  /** `link_categories` after the loop has seen `links`. */
  function CategoriesOf(links: seq<LinkData>, external: seq<LinkData>): Categories {
    if links == [] then Categories([], [], [], [], [])
    else
      var l := links[|links| - 1];
      File(CategoriesOf(links[..|links| - 1], external), CategoryOf(l, external), l)
  }

  function Filed(cs: Categories): multiset<LinkData> {
    multiset(cs.navigation) + multiset(cs.content) + multiset(cs.social) + multiset(cs.externalReferences)
    + multiset(cs.callsToAction)
  }

  /** Each list holds only links of its own category. */
  ghost predicate Sorted(cs: Categories, external: seq<LinkData>) {
    (forall l :: l in cs.navigation ==> CategoryOf(l, external) == Navigation)
    && (forall l :: l in cs.content ==> CategoryOf(l, external) == ContentLink)
    && (forall l :: l in cs.social ==> CategoryOf(l, external) == SocialLink)
    && (forall l :: l in cs.externalReferences ==> CategoryOf(l, external) == ExternalReference)
    && (forall l :: l in cs.callsToAction ==> CategoryOf(l, external) == CallToAction)
  }

  /** Filing a link adds it to the list of its category and to no other. */
  lemma FileOne(cs: Categories, external: seq<LinkData>, l: LinkData)
    requires Sorted(cs, external)
    ensures Filed(File(cs, CategoryOf(l, external), l)) == Filed(cs) + multiset{l}
    ensures Sorted(File(cs, CategoryOf(l, external), l), external)
  {
  }

  /** Every link lands in exactly one category list, the one it belongs to. */
  lemma {:induction false} CategoriesPartition(links: seq<LinkData>, external: seq<LinkData>)
    ensures Filed(CategoriesOf(links, external)) == multiset(links)
    ensures Sorted(CategoriesOf(links, external), external)
  {
    if links != [] {
      var init, l := links[..|links| - 1], links[|links| - 1];
      CategoriesPartition(init, external);
      FileOne(CategoriesOf(init, external), external, l);
      assert links == init + [l];
    }
  }

  method CategorizeLinks(internal: seq<LinkData>, external: seq<LinkData>) returns (cs: Categories)
    ensures cs == CategoriesOf(internal + external, external)
  {
    var links := internal + external;
    cs := Categories([], [], [], [], []);
    for i := 0 to |links|
      invariant cs == CategoriesOf(links[..i], external)
    {
      var l := links[i];
      ghost var prev := cs;
      assert CategoriesOf(links[..i + 1], external) == File(prev, CategoryOf(l, external), l) by {
        assert links[..i + 1][..i] == links[..i];
      }
      var text := Lower(l.text);
      var href := Lower(l.href);
      if ContainsAny(text, NavigationWords) {
        cs := cs.(navigation := cs.navigation + [l]);
      } else if ContainsAny(text, ActionWords) {
        cs := cs.(callsToAction := cs.callsToAction + [l]);
      } else if ContainsAny(href, SocialWords) {
        cs := cs.(social := cs.social + [l]);
      } else if l in external {
        cs := cs.(externalReferences := cs.externalReferences + [l]);
      } else {
        cs := cs.(content := cs.content + [l]);
      }
    }
    assert links[..|links|] == links;
  }

  datatype CategoryCounts = CategoryCounts(navigation: nat, content: nat, social: nat, externalReferences: nat,
                                           callsToAction: nat)

  datatype Quality = Good | NeedsImprovement

  datatype LinkAnalysis = LinkAnalysis(totalLinks: nat, internalLinks: nat, externalLinks: nat, socialLinks: nat,
                                       categories: CategoryCounts, internalRatio: Fraction, externalRatio: Fraction,
                                       socialRatio: Fraction, hasSocialPresence: bool, linkQuality: Quality)

  function CountsOf(cs: Categories): CategoryCounts {
    CategoryCounts(|cs.navigation|, |cs.content|, |cs.social|, |cs.externalReferences|, |cs.callsToAction|)
  }

  /** `max(total, 1)` */
  function AtLeastOne(n: nat): (r: nat)
    ensures r > 0
  {
    if n > 1 then n else 1
  }

  function LinkAnalysisOf(seo: SeoData, cs: Categories): LinkAnalysis {
    var internal, external, social := |seo.internalLinks|, |seo.externalLinks|, |seo.socialLinks|;
    var den := AtLeastOne(internal + external);
    LinkAnalysis(internal + external, internal, external, social, CountsOf(cs), Fraction(internal, den),
                 Fraction(external, den), Fraction(social, den), social > 0,
                 if internal > external then Good else NeedsImprovement)
  }

  // ---------------------------------------------------------------------
  // media_analysis (main.py:772-786)
  // ---------------------------------------------------------------------

  datatype Media = Media(totalImages: nat, imagesWithAlt: nat, imagesWithoutAlt: nat, altTextCoverage: Fraction,
                         lazyLoadingImages: nat, responsiveImages: nat, mediaRichness: Level,
                         seoOptimizedImages: Fraction)

  predicate HasAlt(i: ImageData) { i.alt != "" }
  predicate LazyLoading(i: ImageData) { i.loading == "lazy" }
  predicate Responsive(i: ImageData) { Truthy(i.width) && Truthy(i.height) }

  function MediaRichness(n: nat): (r: Level)
    ensures r == High <==> n > 10
    ensures r == Low <==> n <= 3
  {
    if n > 10 then High else if n > 3 then Medium else Low
  }

  function MediaOf(images: seq<ImageData>): Media {
    var n := |images|;
    var withAlt := CountIf(images, HasAlt);
    Media(n, withAlt, n - withAlt,
          if n > 0 then Fraction(withAlt * 100, n) else Fraction(0, 1),
          CountIf(images, LazyLoading), CountIf(images, Responsive), MediaRichness(n),
          if n > 0 then Fraction(withAlt, n) else Fraction(0, 1))
  }

  // ---------------------------------------------------------------------
  // calculate_performance_score (main.py:801-819)
  // ---------------------------------------------------------------------

  /** `seo_data.get('page_speed_indicators', {})` read with zero defaults. */
  function SpeedOf(seo: SeoData): PageSpeed {
    seo.pageSpeed.GetOr(PageSpeed(0, 0, 0, 0, 0, 0))
  }

  function ScriptPenalty(scripts: nat): nat {
    if scripts > 20 then 20 else if scripts > 10 then 10 else 0
  }

  function StylePenalty(inlineStyles: nat): nat {
    if inlineStyles > 50 then 15 else if inlineStyles > 20 then 7 else 0
  }

  function AltPenalty(altless: nat): nat {
    if altless > 0 then 10 else 0
  }

  /** 100 less the three deductions, floored at 0. */
  function PerformanceScore(s: PageSpeed): (r: int) {
    var score := 100 - ScriptPenalty(s.totalScripts) - StylePenalty(s.inlineStyles) - AltPenalty(s.imagesWithoutAlt);
    if score > 0 then score else 0
  }

  method CalculatePerformanceScore(s: PageSpeed) returns (score: int)
    ensures score == PerformanceScore(s)
    ensures 55 <= score <= 100
  {
    score := 100;
    if s.totalScripts > 20 {
      score := score - 20;
    } else if s.totalScripts > 10 {
      score := score - 10;
    }
    if s.inlineStyles > 50 {
      score := score - 15;
    } else if s.inlineStyles > 20 {
      score := score - 7;
    }
    if s.imagesWithoutAlt > 0 {
      score := score - 10;
    }
    if score < 0 {
      score := 0;
    }
  }

  /** The score lies in [55, 100]: the deductions add up to at most 45, so
      the floor at 0 never applies. */
  lemma PerformanceScoreBounds(s: PageSpeed)
    ensures 55 <= PerformanceScore(s) <= 100
    ensures PerformanceScore(s)
         == 100 - ScriptPenalty(s.totalScripts) - StylePenalty(s.inlineStyles) - AltPenalty(s.imagesWithoutAlt)
  {
  }

  /** A full score exactly when no deduction applies. */
  lemma PerfectPerformance(s: PageSpeed)
    ensures PerformanceScore(s) == 100 <==> s.totalScripts <= 10 && s.inlineStyles <= 20 && s.imagesWithoutAlt == 0
  {
  }

  /** More scripts, inline styles or images without alt text never raise the score. */
  lemma PerformanceMonotone(s: PageSpeed, t: PageSpeed)
    requires s.totalScripts <= t.totalScripts && s.inlineStyles <= t.inlineStyles
    requires s.imagesWithoutAlt <= t.imagesWithoutAlt
    ensures PerformanceScore(t) <= PerformanceScore(s)
  {
  }

  // ---------------------------------------------------------------------
  // identify_optimization_opportunities (main.py:821-843)
  // ---------------------------------------------------------------------

  const OpportunityTexts: seq<string> := [
    "Consider reducing the number of scripts",
    "Move inline styles to external stylesheets",
    "Add alt text to all images for better SEO",
    "Consider adding more content for better SEO",
    "Add canonical URL to prevent duplicate content issues",
    "Consider adding a sitemap for better search engine indexing"]

  function OpportunityFires(s: PageSpeed, seo: SeoData): (r: seq<bool>)
    ensures |r| == |OpportunityTexts|
  {
    [s.totalScripts > 15, s.inlineStyles > 30, s.imagesWithoutAlt > 0, seo.wordCount < 300,
     !Truthy(seo.canonicalUrl), !Truthy(seo.sitemap)]
  }

  method IdentifyOpportunities(s: PageSpeed, seo: SeoData) returns (ops: seq<string>)
    ensures ops == Selected(OpportunityTexts, OpportunityFires(s, seo))
  {
    ghost var f := OpportunityFires(s, seo);
    ops := [];
    ops := AppendIf(ops, s.totalScripts > 15, OpportunityTexts[0]);
    assert ops == Pick(f[0], OpportunityTexts[0]);
    ops := AppendIf(ops, s.inlineStyles > 30, OpportunityTexts[1]);
    ops := AppendIf(ops, s.imagesWithoutAlt > 0, OpportunityTexts[2]);
    ops := AppendIf(ops, seo.wordCount < 300, OpportunityTexts[3]);
    ops := AppendIf(ops, !Truthy(seo.canonicalUrl), OpportunityTexts[4]);
    ops := AppendIf(ops, !Truthy(seo.sitemap), OpportunityTexts[5]);
    SelectedOfSix(OpportunityTexts, f);
  }

  // ---------------------------------------------------------------------
  // The whole analysis and generate_recommendations (main.py:845-883)
  // ---------------------------------------------------------------------

  datatype Insights = Insights(totalScripts: nat, totalStylesheets: nat, inlineStyles: nat, totalImages: nat,
                               imagesWithoutAlt: nat, performanceScore: int, opportunities: seq<string>)

  datatype Analysis = Analysis(overview: Overview, seo: SeoAnalysis, technical: Technical,
                               categorization: Categorization, links: LinkAnalysis, media: Media,
                               performance: Insights, recommendations: seq<string>)

  const RecommendationTexts: seq<string> := [
    "\U{1F4DD} Add more content - aim for at least 300 words for better SEO",
    "\U{1F517} Add canonical URL to prevent duplicate content issues",
    "\U{1F5BC}\U{FE0F} Improve image alt text coverage - aim for 100%",
    "\U{1F3A8} Add a favicon for better brand recognition",
    "\U{26A1} Reduce number of scripts to improve page load speed",
    "\U{1F3A8} Move inline styles to external stylesheets",
    "\U{1F4CB} Optimize heading hierarchy - use one H1 and proper H2-H6 structure",
    "\U{1F517} Balance internal vs external links - prioritize internal linking",
    "\U{1F4DA} Enhance content depth with more detailed information",
    "\U{1F4F1} Add social media links for better engagement"]

  function RecommendationFires(a: Analysis): (r: seq<bool>)
    ensures |r| == |RecommendationTexts|
  {
    [a.seo.wordCount < 300, !a.seo.canonicalUrl, Below(a.media.altTextCoverage, 80), !a.seo.favicon,
     a.performance.totalScripts > 15, a.performance.inlineStyles > 30, !a.categorization.hierarchyOptimal,
     AboveHalf(a.links.externalRatio), a.seo.contentRichness == Low, !a.links.hasSocialPresence]
  }

  method GenerateRecommendations(a: Analysis) returns (recs: seq<string>)
    ensures recs == Selected(RecommendationTexts, RecommendationFires(a))
  {
    ghost var f := RecommendationFires(a);
    recs := [];
    recs := AppendIf(recs, a.seo.wordCount < 300, RecommendationTexts[0]);
    assert recs == Pick(f[0], RecommendationTexts[0]);
    recs := AppendIf(recs, !a.seo.canonicalUrl, RecommendationTexts[1]);
    recs := AppendIf(recs, Below(a.media.altTextCoverage, 80), RecommendationTexts[2]);
    recs := AppendIf(recs, !a.seo.favicon, RecommendationTexts[3]);
    recs := AppendIf(recs, a.performance.totalScripts > 15, RecommendationTexts[4]);
    recs := AppendIf(recs, a.performance.inlineStyles > 30, RecommendationTexts[5]);
    recs := AppendIf(recs, !a.categorization.hierarchyOptimal, RecommendationTexts[6]);
    recs := AppendIf(recs, AboveHalf(a.links.externalRatio), RecommendationTexts[7]);
    recs := AppendIf(recs, a.seo.contentRichness == Low, RecommendationTexts[8]);
    recs := AppendIf(recs, !a.links.hasSocialPresence, RecommendationTexts[9]);
    SelectedOfTen(RecommendationTexts, f);
  }

  /** Every section of the analysis, before the recommendations are added. */
  function Sections(sd: Scraped): Analysis {
    var seo := sd.seo;
    var speed := SpeedOf(seo);
    Analysis(OverviewOf(sd), SeoAnalysisOf(seo), TechnicalOf(sd.css, sd.js), CategorizationOf(seo.headings),
             LinkAnalysisOf(seo, CategoriesOf(seo.internalLinks + seo.externalLinks, seo.externalLinks)),
             MediaOf(seo.images),
             Insights(speed.totalScripts, speed.totalStylesheets, speed.inlineStyles, speed.totalImages,
                      speed.imagesWithoutAlt, PerformanceScore(speed),
                      Selected(OpportunityTexts, OpportunityFires(speed, seo))),
             [])
  }

  /** What `analyze_scraped_content` returns. */
  function AnalysisOf(sd: Scraped): Analysis {
    var a := Sections(sd);
    a.(recommendations := Selected(RecommendationTexts, RecommendationFires(a)))
  }

  method AnalyzeScrapedContent(sd: Scraped) returns (a: Analysis)
    ensures a == AnalysisOf(sd)
  {
    var seo := sd.seo;
    var speed := SpeedOf(seo);
    var cs := CategorizeLinks(seo.internalLinks, seo.externalLinks);
    var score := CalculatePerformanceScore(speed);
    var ops := IdentifyOpportunities(speed, seo);
    a := Analysis(OverviewOf(sd), SeoAnalysisOf(seo), TechnicalOf(sd.css, sd.js), CategorizationOf(seo.headings),
                  LinkAnalysisOf(seo, cs), MediaOf(seo.images),
                  Insights(speed.totalScripts, speed.totalStylesheets, speed.inlineStyles, speed.totalImages,
                           speed.imagesWithoutAlt, score, ops),
                  []);
    var recs := GenerateRecommendations(a);
    a := a.(recommendations := recs);
  }

  // ---------------------------------------------------------------------
  // Properties of the analysis
  // ---------------------------------------------------------------------

  lemma RecommendationTextsDistinct()
    ensures Distinct(RecommendationTexts)
  {
    var t := RecommendationTexts;
    assert |t[0]| == 62 && |t[1]| == 55 && |t[2]| == 49 && |t[3]| == 44 && |t[4]| == 53;
    assert |t[5]| == 44 && |t[6]| == 68 && |t[7]| == 66 && |t[8]| == 54 && |t[9]| == 46;
    assert t[3][43] == 'n' && t[5][43] == 's';
  }

  /** Division safety: every ratio has a positive denominator, a page
      without links has all three link ratios 0, and a page without images
      has alt-text coverage 0. */
  lemma DivisionSafety(sd: Scraped)
    ensures var a := AnalysisOf(sd);
      a.links.internalRatio.den > 0 && a.links.externalRatio.den > 0 && a.links.socialRatio.den > 0
      && a.media.altTextCoverage.den > 0 && a.media.seoOptimizedImages.den > 0
    ensures sd.seo.internalLinks == [] && sd.seo.externalLinks == [] ==>
      var a := AnalysisOf(sd);
      a.links.internalRatio.num == 0 && a.links.externalRatio.num == 0
    ensures sd.seo.images == [] ==> AnalysisOf(sd).media.altTextCoverage == Fraction(0, 1)
    ensures ((forall l :: l in sd.seo.socialLinks ==> l in sd.seo.externalLinks)
             && sd.seo.internalLinks == [] && sd.seo.externalLinks == []) ==> AnalysisOf(sd).links.socialRatio.num == 0
  {
    if forall l :: l in sd.seo.socialLinks ==> l in sd.seo.externalLinks {
      FirstAmong(sd.seo.socialLinks, sd.seo.externalLinks);
    }
  }

  /** When every element of `a` lies in `b`, so does its first one. */
  lemma FirstAmong<T>(a: seq<T>, b: seq<T>)
    requires forall x :: x in a ==> x in b
    ensures |a| > 0 ==> a[0] in b
  {
  }

  /** On the record a fetch stores, extracted or fallback, a page without
      internal or external links has all three link ratios 0: its social
      links are among the external ones. */
  lemma ScrapedLinkRatiosVanish(sd: Scraped, page: Page, url: string, lib: Library)
    requires sd.seo == ScrapedSeo(page, url, lib)
    requires sd.seo.internalLinks == [] && sd.seo.externalLinks == []
    ensures var a := AnalysisOf(sd);
      a.links.internalRatio.num == 0 && a.links.externalRatio.num == 0 && a.links.socialRatio.num == 0
  {
    if SeoMetadata(page, url, lib).Some? {
      LinkClassification(page, url, lib);
    }
    DivisionSafety(sd);
  }

  /** The rest of the analysis' figures: the performance score is in
      [55, 100], the link categories account for every link once, and the
      alt-text counts split the images. */
  lemma AnalysisFigures(sd: Scraped)
    ensures var a := AnalysisOf(sd);
      55 <= a.performance.performanceScore <= 100
      && a.links.totalLinks == |sd.seo.internalLinks| + |sd.seo.externalLinks|
      && a.links.categories.navigation + a.links.categories.content + a.links.categories.social
         + a.links.categories.externalReferences + a.links.categories.callsToAction == a.links.totalLinks
      && a.media.imagesWithAlt + a.media.imagesWithoutAlt == a.media.totalImages
      && (a.links.linkQuality == Good <==> |sd.seo.internalLinks| > |sd.seo.externalLinks|)
  {
    var links := sd.seo.internalLinks + sd.seo.externalLinks;
    var cs := CategoriesOf(links, sd.seo.externalLinks);
    CategoriesPartition(links, sd.seo.externalLinks);
    assert |Filed(cs)| == |links|;
    PerformanceScoreBounds(SpeedOf(sd.seo));
  }

  /** On scraped metadata the internal and external lists share no link, so
      an internal link is never counted as an external reference. */
  lemma InternalNeverExternalReference(page: Page, url: string, lib: Library, l: LinkData)
    requires SeoMetadata(page, url, lib).Some?
    requires l in SeoMetadata(page, url, lib).value.internalLinks
    ensures CategoryOf(l, SeoMetadata(page, url, lib).value.externalLinks) != ExternalReference
  {
    LinkClassification(page, url, lib);
  }

  /** A recommendation is made exactly when its rule holds of the page. */
  lemma RecommendationRules(sd: Scraped, i: nat)
    requires i < |RecommendationTexts|
    ensures RecommendationTexts[i] in AnalysisOf(sd).recommendations <==> RecommendationFires(Sections(sd))[i]
    ensures |AnalysisOf(sd).recommendations| <= 10 && Distinct(AnalysisOf(sd).recommendations)
  {
    RecommendationTextsDistinct();
    SelectedMembership(RecommendationTexts, RecommendationFires(Sections(sd)), i);
    SelectedDistinct(RecommendationTexts, RecommendationFires(Sections(sd)));
  }

  /** Short content: under 300 words both the "add more content" and the
      "enhance content depth" recommendations are made; at exactly 300 words
      only the second. */
  lemma ShortContentRecommendations(sd: Scraped)
    ensures sd.seo.wordCount < 300 ==>
      RecommendationTexts[0] in AnalysisOf(sd).recommendations && RecommendationTexts[8] in AnalysisOf(sd).recommendations
    ensures sd.seo.wordCount == 300 ==>
      RecommendationTexts[0] !in AnalysisOf(sd).recommendations && RecommendationTexts[8] in AnalysisOf(sd).recommendations
  {
    RecommendationRules(sd, 0);
    RecommendationRules(sd, 8);
  }

  /** The alt-text recommendation is made exactly when fewer than 80% of the
      images have alt text, and always on a page with no images. */
  lemma AltTextRecommendation(sd: Scraped)
    ensures RecommendationTexts[2] in AnalysisOf(sd).recommendations
        <==> sd.seo.images == [] || 100 * CountIf(sd.seo.images, HasAlt) < 80 * |sd.seo.images|
  {
    RecommendationRules(sd, 2);
  }

  /** The link-balance recommendation is made exactly when there are more
      external links than internal ones. */
  lemma LinkBalanceRecommendation(sd: Scraped)
    ensures RecommendationTexts[7] in AnalysisOf(sd).recommendations
        <==> |sd.seo.externalLinks| > |sd.seo.internalLinks|
  {
    RecommendationRules(sd, 7);
  }

  /** The heading-hierarchy recommendation is made unless there is exactly
      one h1 and at least one h2. */
  lemma HeadingRecommendation(sd: Scraped)
    ensures RecommendationTexts[6] in AnalysisOf(sd).recommendations
        <==> !(HeadingCount(sd.seo.headings, 1) == 1 && HeadingCount(sd.seo.headings, 2) > 0)
  {
    RecommendationRules(sd, 6);
  }

  /** The record stored after a failed extraction draws the canonical,
      favicon, heading, social, short-content and alt-text recommendations. */
  lemma FallbackRecommendations(sd: Scraped)
    requires sd.seo == Fallback
    ensures var recs := AnalysisOf(sd).recommendations;
      RecommendationTexts[0] in recs && RecommendationTexts[1] in recs && RecommendationTexts[2] in recs
      && RecommendationTexts[3] in recs && RecommendationTexts[6] in recs && RecommendationTexts[8] in recs
      && RecommendationTexts[9] in recs && RecommendationTexts[4] !in recs
  {
    RecommendationRules(sd, 0);
    RecommendationRules(sd, 1);
    RecommendationRules(sd, 2);
    RecommendationRules(sd, 3);
    RecommendationRules(sd, 4);
    RecommendationRules(sd, 6);
    RecommendationRules(sd, 8);
    RecommendationRules(sd, 9);
  }

  /** An opportunity is listed exactly when its rule holds. */
  lemma OpportunityRules(s: PageSpeed, seo: SeoData, i: nat)
    requires i < |OpportunityTexts|
    ensures OpportunityTexts[i] in Selected(OpportunityTexts, OpportunityFires(s, seo)) <==> OpportunityFires(s, seo)[i]
    ensures Selected(OpportunityTexts, OpportunityFires(s, seo)) == []
        <==> s.totalScripts <= 15 && s.inlineStyles <= 30 && s.imagesWithoutAlt == 0 && seo.wordCount >= 300
             && Truthy(seo.canonicalUrl) && Truthy(seo.sitemap)
  {
    assert Distinct(OpportunityTexts) by {
      var t := OpportunityTexts;
      assert |t[0]| == 39 && |t[1]| == 42 && |t[2]| == 41 && |t[3]| == 43 && |t[4]| == 53 && |t[5]| == 59;
    }
    var f := OpportunityFires(s, seo);
    SelectedMembership(OpportunityTexts, f, i);
    SelectedEmpty(OpportunityTexts, f);
    assert (forall k :: 0 <= k < |f| ==> !f[k]) <==> !f[0] && !f[1] && !f[2] && !f[3] && !f[4] && !f[5];
  }
}
