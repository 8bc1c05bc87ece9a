/** The tracking fingerprinter of main.py: `extract_analytics_data`, the
    five `extract_*_info` matchers and `calculate_tracking_intensity`. */
module Fingerprint {
  import opened Wrappers
  import opened Text
  import opened IdPatterns
  import opened Document

  // ---------------------------------------------------------------------
  // Records
  // ---------------------------------------------------------------------

  /** An inline script: `script.string or ''` and `script.get('src', '')`. */
  datatype Script = Script(content: string, src: string)

  datatype GaVersion = UnknownVersion | GA4 | UniversalAnalytics

  datatype GaInfo = GaInfo(version: GaVersion, trackingId: Option<string>, measurementId: Option<string>,
                           contentPreview: string, src: string)
  datatype GtmInfo = GtmInfo(containerId: string, contentPreview: string, src: string)
  datatype PixelInfo = PixelInfo(pixelId: string, contentPreview: string, src: string)
  datatype HotjarInfo = HotjarInfo(siteId: string, contentPreview: string, src: string)
  datatype MixpanelInfo = MixpanelInfo(projectToken: string, contentPreview: string, src: string)
  datatype OtherInfo = OtherInfo(contentPreview: string, src: string)

  /** The six tool lists, in the order `calculate_tracking_intensity` adds them. */
  datatype ToolLists = ToolLists(ga: seq<GaInfo>, fb: seq<PixelInfo>, gtm: seq<GtmInfo>,
                                 hotjar: seq<HotjarInfo>, mixpanel: seq<MixpanelInfo>, other: seq<OtherInfo>)

  datatype SocialKind = FacebookMeta | TwitterMeta
  datatype SocialMeta = SocialMeta(kind: SocialKind, name: string, content: string)

  datatype Intensity = NoTracking | Light | Moderate | Heavy | VeryHeavy

  datatype Summary = Summary(totalTools: nat, hasGa: bool, hasFb: bool, hasGtm: bool, hasHotjar: bool,
                             hasMixpanel: bool, hasSocial: bool, intensity: Intensity)

  datatype AnalyticsData = AnalyticsData(tools: ToolLists, social: seq<SocialMeta>, summary: Summary)

  const EmptyTools := ToolLists([], [], [], [], [], [])

  function ScriptOf(e: Element): Script {
    Script(if e.str.Some? then e.str.value else "", AttrOr(e, "src", ""))
  }

  // ---------------------------------------------------------------------
  // The ID matchers (extract_*_info)
  // ---------------------------------------------------------------------

  /** `extract_google_analytics_info`, including its `gtag(...)` fallback. */
  function ExtractGa(content: string, src: string): (r: Option<GaInfo>)
    ensures r.Some? <==> FindText(Ga4, content).Some? || FindText(Ua, content).Some?
    ensures r.Some? ==> (r.value.measurementId == FindText(Ga4, content)
                         && r.value.trackingId == FindText(Ua, content))
    ensures r.Some? ==> r.value.version == (if FindText(Ua, content).Some? then UniversalAnalytics else GA4)
    ensures r.Some? ==> r.value.contentPreview == Preview(content) && r.value.src == src
  {
    var measurement := FindText(Ga4, content);
    var tracking := FindText(Ua, content);
    var version := if tracking.Some? then UniversalAnalytics else if measurement.Some? then GA4 else UnknownVersion;
    var gtag := Search(GtagConfig, content);
    var fallback :=
      if gtag.Some? && measurement.None? && tracking.None? then
        FindText(GaId, content[gtag.value.span.start..gtag.value.span.end])
      else None;
    var info :=
      match fallback
      case None => GaInfo(version, tracking, measurement, Preview(content), src)
      case Some(id) =>
        if StartsWith(id, "G-") then GaInfo(GA4, tracking, Some(id), Preview(content), src)
        else GaInfo(UniversalAnalytics, Some(id), measurement, Preview(content), src);
    GtagSearchCarriesId(content);
    if info.trackingId.Some? || info.measurementId.Some? then Some(info) else None
  }

  /** `extract_gtm_info` */
  function ExtractGtm(content: string, src: string): (r: Option<GtmInfo>)
    ensures r.Some? <==> exists i :: 0 <= i <= |content| && MatchAt(Gtm, content, i).Some?
    ensures r.Some? ==> r.value.containerId == FindText(Gtm, content).value
    ensures r.Some? ==> IsGtmId(r.value.containerId) && Contains(content, r.value.containerId)
    ensures r.Some? ==> r.value.contentPreview == Preview(content) && r.value.src == src
  {
    match FindText(Gtm, content)
    case None => None
    case Some(id) => Some(GtmInfo(id, Preview(content), src))
  }

  /** `extract_facebook_pixel_info` */
  function ExtractPixel(content: string, src: string): (r: Option<PixelInfo>)
    ensures r.Some? <==> exists i :: 0 <= i <= |content| && MatchAt(Pixel, content, i).Some?
    ensures r.Some? ==> r.value.pixelId == FindText(Pixel, content).value
    ensures r.Some? ==> IsPixelId(r.value.pixelId) && Contains(content, r.value.pixelId)
    ensures r.Some? ==> r.value.contentPreview == Preview(content) && r.value.src == src
  {
    match FindText(Pixel, content)
    case None => None
    case Some(id) => Some(PixelInfo(id, Preview(content), src))
  }

  /** `extract_hotjar_info` */
  function ExtractHotjar(content: string, src: string): (r: Option<HotjarInfo>)
    ensures r.Some? <==> exists i :: 0 <= i <= |content| && MatchAt(Hotjar, content, i).Some?
    ensures r.Some? ==> r.value.siteId == FindText(Hotjar, content).value
    ensures r.Some? ==> IsHotjarId(r.value.siteId) && Contains(content, r.value.siteId)
    ensures r.Some? ==> r.value.contentPreview == Preview(content) && r.value.src == src
  {
    match FindText(Hotjar, content)
    case None => None
    case Some(id) => Some(HotjarInfo(id, Preview(content), src))
  }

  /** `extract_mixpanel_info` */
  function ExtractMixpanel(content: string, src: string): (r: Option<MixpanelInfo>)
    ensures r.Some? <==> exists i :: 0 <= i <= |content| && MatchAt(Mixpanel, content, i).Some?
    ensures r.Some? ==> r.value.projectToken == FindText(Mixpanel, content).value
    ensures r.Some? ==> IsMixpanelToken(r.value.projectToken) && Contains(content, r.value.projectToken)
    ensures r.Some? ==> r.value.contentPreview == Preview(content) && r.value.src == src
  {
    match FindText(Mixpanel, content)
    case None => None
    case Some(id) => Some(MixpanelInfo(id, Preview(content), src))
  }

  // ---------------------------------------------------------------------
  // The dispatch chain
  // ---------------------------------------------------------------------

  datatype Branch = GaBranch | GtmBranch | FbBranch | HotjarBranch | MixpanelBranch | OtherBranch | NoBranch

  const OtherTools: seq<string> := ["clarity", "crazyegg", "optimizely", "vwo", "abtasty"]

  /** Which arm of the if/elif chain a script enters. */
  function BranchOf(sc: Script): Branch {
    if Contains(sc.content, "gtag") || Contains(sc.content, "ga(") || Contains(sc.src, "google-analytics") then GaBranch
    else if Contains(sc.content, "googletagmanager") || Contains(sc.src, "googletagmanager") then GtmBranch
    else if Contains(sc.content, "fbq") || Contains(sc.src, "facebook") then FbBranch
    else if Contains(sc.content, "hotjar") || Contains(sc.src, "hotjar") then HotjarBranch
    else if Contains(sc.content, "mixpanel") || Contains(sc.src, "mixpanel") then MixpanelBranch
    else if ContainsAny(Lower(sc.content), OtherTools) then OtherBranch
    else NoBranch
  }

  /** One iteration of the script loop. */
  function Step(acc: ToolLists, sc: Script): ToolLists {
    match BranchOf(sc)
    case GaBranch =>
      (match ExtractGa(sc.content, sc.src) case Some(g) => acc.(ga := acc.ga + [g]) case None => acc)
    case GtmBranch =>
      (match ExtractGtm(sc.content, sc.src) case Some(g) => acc.(gtm := acc.gtm + [g]) case None => acc)
    case FbBranch =>
      (match ExtractPixel(sc.content, sc.src) case Some(f) => acc.(fb := acc.fb + [f]) case None => acc)
    case HotjarBranch =>
      (match ExtractHotjar(sc.content, sc.src) case Some(h) => acc.(hotjar := acc.hotjar + [h]) case None => acc)
    case MixpanelBranch =>
      (match ExtractMixpanel(sc.content, sc.src) case Some(m) => acc.(mixpanel := acc.mixpanel + [m]) case None => acc)
    case OtherBranch => acc.(other := acc.other + [OtherInfo(Preview(sc.content), sc.src)])
    case NoBranch => acc
  }

  /** The tool lists after the loop has seen `scripts`. */
  function ToolsOf(scripts: seq<Script>): ToolLists {
    if scripts == [] then EmptyTools else Step(ToolsOf(scripts[..|scripts| - 1]), scripts[|scripts| - 1])
  }

  function TotalTools(t: ToolLists): nat {
    |t.ga| + |t.fb| + |t.gtm| + |t.hotjar| + |t.mixpanel| + |t.other|
  }

  /** How many of the six lists differ between two states. */
  function ListsChanged(a: ToolLists, b: ToolLists): nat {
    (if a.ga != b.ga then 1 else 0) + (if a.fb != b.fb then 1 else 0) + (if a.gtm != b.gtm then 1 else 0)
    + (if a.hotjar != b.hotjar then 1 else 0) + (if a.mixpanel != b.mixpanel then 1 else 0)
    + (if a.other != b.other then 1 else 0)
  }

  /** Every list of `b` extends the same list of `a`. */
  predicate Extends(a: ToolLists, b: ToolLists) {
    a.ga <= b.ga && a.fb <= b.fb && a.gtm <= b.gtm && a.hotjar <= b.hotjar
    && a.mixpanel <= b.mixpanel && a.other <= b.other
  }

  /** A script adds at most one record, to at most one list, and removes nothing. */
  lemma StepAddsAtMostOne(acc: ToolLists, sc: Script)
    ensures TotalTools(Step(acc, sc)) <= TotalTools(acc) + 1
    ensures ListsChanged(acc, Step(acc, sc)) <= 1
    ensures Extends(acc, Step(acc, sc))
  {
  }

  /** A script that enters the GA arm but carries no GA ID adds nothing,
      whatever GTM, pixel, Hotjar or Mixpanel text it also holds. */
  lemma GaArmWithoutIdAddsNothing(acc: ToolLists, sc: Script)
    requires BranchOf(sc) == GaBranch
    requires FindText(Ga4, sc.content).None? && FindText(Ua, sc.content).None?
    ensures Step(acc, sc) == acc
  {
  }

  /** The "other tools" arm reads only the lower-cased content, never `src`. */
  lemma OtherArmIgnoresSrc(sc: Script)
    ensures BranchOf(sc) == OtherBranch ==> ContainsAny(Lower(sc.content), OtherTools)
    ensures !ContainsAny(Lower(sc.content), OtherTools) ==> BranchOf(sc) != OtherBranch
  {
  }

  /** A script with no inline text whose `src` names none of the five
      earlier signatures (a Clarity or Optimizely tag, say) lands in no list. */
  lemma ExternalOnlyOtherToolIgnored(acc: ToolLists, src: string)
    requires !Contains(src, "google-analytics") && !Contains(src, "googletagmanager")
    requires !Contains(src, "facebook") && !Contains(src, "hotjar") && !Contains(src, "mixpanel")
    ensures BranchOf(Script("", src)) == NoBranch
    ensures Step(acc, Script("", src)) == acc
  {
    assert Lower("") == "";
    NotContainsChar("", "gtag", 'g');
    NotContainsChar("", "ga(", 'g');
    NotContainsChar("", "googletagmanager", 'g');
    NotContainsChar("", "fbq", 'f');
    NotContainsChar("", "hotjar", 'h');
    NotContainsChar("", "mixpanel", 'm');
    forall k | 0 <= k < |OtherTools| ensures !Contains("", OtherTools[k]) {
      NotContainsChar("", OtherTools[k], OtherTools[k][0]);
    }
  }

  /** The loop over all scripts adds at most one record per script. */
  lemma {:induction false} ToolsAtMostOnePerScript(scripts: seq<Script>)
    ensures TotalTools(ToolsOf(scripts)) <= |scripts|
  {
    if scripts != [] {
      ToolsAtMostOnePerScript(scripts[..|scripts| - 1]);
      StepAddsAtMostOne(ToolsOf(scripts[..|scripts| - 1]), scripts[|scripts| - 1]);
    }
  }

  // ---------------------------------------------------------------------
  // Social meta tags, summary, intensity
  // ---------------------------------------------------------------------

  /** The record the meta-tag loop appends for one `<meta>`, if any. */
  function SocialOf(e: Element): (r: Option<SocialMeta>)
    ensures r.Some? ==> r.value.name == MetaKey(e) && r.value.content == MetaContent(e)
    ensures r.Some? <==> Contains(Lower(MetaKey(e)), "facebook") || Contains(Lower(MetaKey(e)), "fb:")
                         || Contains(Lower(MetaKey(e)), "twitter")
    ensures r.Some? && r.value.kind == TwitterMeta ==>
              !Contains(Lower(MetaKey(e)), "facebook") && !Contains(Lower(MetaKey(e)), "fb:")
  {
    var name := MetaKey(e);
    var lower := Lower(name);
    if Contains(lower, "facebook") || Contains(lower, "fb:") then Some(SocialMeta(FacebookMeta, name, MetaContent(e)))
    else if Contains(lower, "twitter") then Some(SocialMeta(TwitterMeta, name, MetaContent(e)))
    else None
  }

  function SocialOfAll(metas: seq<Element>): seq<SocialMeta> {
    if metas == [] then []
    else
      var init := SocialOfAll(metas[..|metas| - 1]);
      match SocialOf(metas[|metas| - 1])
      case Some(m) => init + [m]
      case None => init
  }

  function IntensityRank(i: Intensity): nat {
    match i
    case NoTracking => 0
    case Light => 1
    case Moderate => 2
    case Heavy => 3
    case VeryHeavy => 4
  }

  /** `calculate_tracking_intensity` on the six lists. */
  function TrackingIntensity(t: ToolLists): (r: Intensity)
    ensures r == NoTracking <==> TotalTools(t) == 0
    ensures r == Light <==> TotalTools(t) == 1
    ensures r == Moderate <==> 2 <= TotalTools(t) <= 3
    ensures r == Heavy <==> 4 <= TotalTools(t) <= 5
    ensures r == VeryHeavy <==> TotalTools(t) >= 6
  {
    var total := TotalTools(t);
    if total == 0 then NoTracking
    else if total == 1 then Light
    else if total <= 3 then Moderate
    else if total <= 5 then Heavy
    else VeryHeavy
  }

  /** More tools never lowers the band. */
  lemma IntensityMonotone(a: ToolLists, b: ToolLists)
    requires TotalTools(a) <= TotalTools(b)
    ensures IntensityRank(TrackingIntensity(a)) <= IntensityRank(TrackingIntensity(b))
  {
  }

  function SummaryOf(t: ToolLists, social: seq<SocialMeta>): (r: Summary)
    ensures r.totalTools == TotalTools(t)
    ensures r.hasGa <==> t.ga != []
    ensures r.hasFb <==> t.fb != []
    ensures r.hasGtm <==> t.gtm != []
    ensures r.hasHotjar <==> t.hotjar != []
    ensures r.hasMixpanel <==> t.mixpanel != []
    ensures r.hasSocial <==> social != []
    ensures r.intensity == TrackingIntensity(t)
  {
    Summary(TotalTools(t), |t.ga| > 0, |t.fb| > 0, |t.gtm| > 0, |t.hotjar| > 0, |t.mixpanel| > 0,
            |social| > 0, TrackingIntensity(t))
  }

  function ScriptsOf(doc: seq<Element>): (r: seq<Script>)
    ensures |r| == |Tagged(doc, "script")|
  {
    var tagged := Tagged(doc, "script");
    seq(|tagged|, i requires 0 <= i < |tagged| => ScriptOf(tagged[i]))
  }

  /** What `extract_analytics_data` returns for a page. */
  function AnalyticsOf(doc: seq<Element>): AnalyticsData {
    var tools := ToolsOf(ScriptsOf(doc));
    var social := SocialOfAll(Tagged(doc, "meta"));
    AnalyticsData(tools, social, SummaryOf(tools, social))
  }

  /** `extract_analytics_data`: one pass over the scripts, one over the meta tags. */
  method ExtractAnalyticsData(doc: seq<Element>) returns (a: AnalyticsData)
    ensures a == AnalyticsOf(doc)
    ensures a.summary.totalTools == TotalTools(a.tools) <= |Tagged(doc, "script")|
  {
    var scripts := ScriptsOf(doc);
    var tools := EmptyTools;
    var i := 0;
    while i < |scripts|
      invariant 0 <= i <= |scripts|
      invariant tools == ToolsOf(scripts[..i])
    {
      assert scripts[..i + 1][..i] == scripts[..i];
      tools := Step(tools, scripts[i]);
      i := i + 1;
    }
    assert scripts[..i] == scripts;
    var metas := Tagged(doc, "meta");
    var social: seq<SocialMeta> := [];
    var j := 0;
    while j < |metas|
      invariant 0 <= j <= |metas|
      invariant social == SocialOfAll(metas[..j])
    {
      assert metas[..j + 1][..j] == metas[..j];
      match SocialOf(metas[j]) {
        case Some(m) => social := social + [m];
        case None =>
      }
      j := j + 1;
    }
    assert metas[..j] == metas;
    ToolsAtMostOnePerScript(scripts);
    a := AnalyticsData(tools, social, SummaryOf(tools, social));
  }

  // ---------------------------------------------------------------------
  // Worked examples
  // ---------------------------------------------------------------------

  /** `gtag('config','G-ABCD123456')` is a GA4 page with no UA ID. */
  lemma Ga4ConfigExample()
    ensures ExtractGa("gtag('config','G-ABCD123456')", "")
         == Some(GaInfo(GA4, None, Some("G-ABCD123456"), "gtag('config','G-ABCD123456')", ""))
  {
    var c := "gtag('config','G-ABCD123456')";
    Ga4ConfigFinds(c);
    NotContainsChar(c, "UA-", 'U');
    NoUaWithoutPrefix(c);
  }

  lemma Ga4ConfigFinds(c: string)
    requires c == "gtag('config','G-ABCD123456')"
    ensures FindText(Ga4, c) == Some("G-ABCD123456")
  {
    assert AllAt(c, 17, 10, IsIdChar);
    assert MatchAt(Ga4, c, 15) == Some(Span(15, 27));
    SearchFinds(Ga4, c, 15);
    NoMatchBefore(c, 15);
    assert Search(Ga4, c) == Some(Found(15, Span(15, 27)));
    assert c[15..27] == "G-ABCD123456";
  }

  lemma NoMatchBefore(c: string, n: nat)
    requires c == "gtag('config','G-ABCD123456')" && n <= 15
    ensures forall j :: 0 <= j < n ==> MatchAt(Ga4, c, j).None?
  {
    if n > 0 {
      NoMatchBefore(c, n - 1);
      assert c[n - 1] != 'G';
    }
  }

  lemma NoUaWithoutPrefix(s: string)
    requires !Contains(s, "UA-")
    ensures FindText(Ua, s).None?
  {
    forall i | 0 <= i <= |s| ensures MatchAt(Ua, s, i).None? {
      assert !OccursAt(s, "UA-", i);
    }
  }

  /** With both a GA4 and a UA ID present, both are kept and the version is UA. */
  lemma BothIdsMeanUniversal(content: string, src: string)
    requires FindText(Ga4, content).Some? && FindText(Ua, content).Some?
    ensures ExtractGa(content, src).Some?
    ensures ExtractGa(content, src).value.measurementId.Some?
    ensures ExtractGa(content, src).value.trackingId.Some?
    ensures ExtractGa(content, src).value.version == UniversalAnalytics
  {
  }
}
