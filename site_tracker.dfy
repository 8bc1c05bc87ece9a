/** The in-memory table of scraped and optimised sites (`SiteTracker`,
    site_tracker.py:7-310). Sites are keyed by their host, in lower case and
    without `www.`; each holds the list of its scrapes and the list of its
    optimisations, and the metadata counts both. The JSON file the table is
    loaded from and saved to is not part of this model: a save is a flag
    saying whether the write succeeded. Clock readings are parameters, one
    per call, and compare as numbers. The host of a URL comes from `netloc`,
    which is `None` where `urlparse` raises. */
module Tracker {
  import opened Wrappers
  import opened Text
  import opened Rules
  import opened Sorting

  // ---------------------------------------------------------------------
  // Records
  // ---------------------------------------------------------------------

  /** The six counts a scrape record keeps of the scraped page. */
  datatype PageStats = PageStats(linksCount: nat, inlineStylesCount: nat, internalStylesheetsCount: nat,
                                 externalStylesheetsCount: nat, inlineScriptsCount: nat,
                                 externalScriptsCount: nat)

  /** The `title` entry of the scraped data: missing, `None`, or a text. */
  datatype TitleEntry = NoTitleKey | NullTitle | TitleText(text: string)

  datatype ScrapeRecord = ScrapeRecord(url: string, scrapedAt: nat, savedDirectory: string,
                                       userEmail: Option<string>, title: Option<string>, stats: PageStats)

  datatype OptimizationRecord = OptimizationRecord(originalUrl: string, userProfile: string, optimizedAt: nat,
                                                   optimizedDirectory: string)

  datatype Site = Site(domain: string, firstScraped: nat, scrapes: seq<ScrapeRecord>,
                       optimizations: seq<OptimizationRecord>, lastScraped: Option<nat>,
                       lastOptimized: Option<nat>)

  datatype Metadata = Metadata(created: nat, lastUpdated: nat, version: string, totalSitesScraped: nat,
                               totalOptimizations: nat)

  /** `_get_site_key`: the host in lower case with every `www.` deleted. */
  function SiteKey(netloc: string -> Option<string>, url: string): (r: Option<string>)
    ensures r.Some? <==> netloc(url).Some?
  {
    match netloc(url)
    case None => None
    case Some(host) => Some(Replace(Lower(host), "www.", ""))
  }

  /** A site key has no upper-case letter. */
  lemma SiteKeyLowerCase(netloc: string -> Option<string>, url: string)
    requires SiteKey(netloc, url).Some?
    ensures forall i :: 0 <= i < |SiteKey(netloc, url).value| ==> !IsUpper(SiteKey(netloc, url).value[i])
  {
    var host := netloc(url).value;
    var key := SiteKey(netloc, url).value;
    forall i | 0 <= i < |key| ensures !IsUpper(key[i]) {
      assert key[i] in key;
      ReplaceKeeps(Lower(host), "www.", "", key[i]);
    }
  }

  lemma LowerExample()
    ensures Lower("WWW.Example.com") == "www.example.com"
  {
    var r := Lower("WWW.Example.com");
    assert forall i :: 0 <= i < 15 ==> r[i] == "www.example.com"[i];
  }

  lemma BareExample()
    ensures Replace("example.com", "www.", "") == "example.com"
  {
    NotContainsChar("example.com", "www.", 'w');
    ReplaceAbsent("example.com", "www.", "");
  }

  lemma WwwExample()
    ensures Replace("www.example.com", "www.", "") == "example.com"
  {
    var s := "www.example.com";
    assert s[..4] == "www." && s[4..] == "example.com";
    BareExample();
  }

  /** `https://WWW.Example.com/x` and `http://example.com` are the same site. */
  lemma SharedSiteKey(netloc: string -> Option<string>)
    requires netloc("https://WWW.Example.com/x") == Some("WWW.Example.com")
    requires netloc("http://example.com") == Some("example.com")
    ensures SiteKey(netloc, "https://WWW.Example.com/x") == Some("example.com")
    ensures SiteKey(netloc, "http://example.com") == Some("example.com")
  {
    LowerExample();
    WwwExample();
    assert Lower("example.com") == "example.com";
    BareExample();
  }

  /** `scraped_data.get('title', 'Unknown')` */
  function StoredTitle(t: TitleEntry): (r: Option<string>)
    ensures t.NoTitleKey? ==> r == Some("Unknown")
    ensures r.None? <==> t.NullTitle?
  {
    match t
    case NoTitleKey => Some("Unknown")
    case NullTitle => None
    case TitleText(s) => Some(s)
  }

  /** The entry for `k`: the existing one, or a new empty one first scraped now. */
  function Entry(sites: map<string, Site>, k: string, now: nat): (s: Site)
    ensures k in sites ==> s == sites[k]
    ensures k !in sites ==> s.domain == k && s.scrapes == [] && s.optimizations == []
  {
    if k in sites then sites[k] else Site(k, now, [], [], None, None)
  }

  function ScrapeCount(s: Site): nat { |s.scrapes| }
  function OptimizationCount(s: Site): nat { |s.optimizations| }

  /** `sum(f(sites[k]) for k in keys)` */
  function Total(keys: seq<string>, sites: map<string, Site>, f: Site -> nat): nat
    requires forall k :: k in keys ==> k in sites
  {
    if keys == [] then 0 else Total(keys[..|keys| - 1], sites, f) + f(sites[keys[|keys| - 1]])
  }

  /** Changing the entry of a key outside the list leaves the total alone. */
  lemma {:induction false} TotalOther(keys: seq<string>, sites: map<string, Site>, f: Site -> nat, k: string, v: Site)
    requires forall x :: x in keys ==> x in sites
    requires k !in keys
    ensures Total(keys, sites[k := v], f) == Total(keys, sites, f)
  {
    if keys != [] {
      TotalOther(keys[..|keys| - 1], sites, f, k, v);
    }
  }

  /** Changing the entry of a listed key moves the total by the change in that entry. */
  lemma {:induction false} TotalUpdate(keys: seq<string>, sites: map<string, Site>, f: Site -> nat, k: string, v: Site)
    requires forall x :: x in keys ==> x in sites
    requires Distinct(keys) && k in keys
    ensures Total(keys, sites[k := v], f) + f(sites[k]) == Total(keys, sites, f) + f(v)
  {
    var n := |keys| - 1;
    var init := keys[..n];
    assert Distinct(init);
    if keys[n] == k {
      assert k !in init by {
        forall j | 0 <= j < n ensures init[j] != k { assert keys[j] != keys[n]; }
      }
      TotalOther(init, sites, f, k, v);
    } else {
      assert k in init by {
        var j :| 0 <= j < |keys| && keys[j] == k;
        assert j < n && init[j] == k;
      }
      TotalUpdate(init, sites, f, k, v);
    }
  }

  /** A key added at the end adds its entry to the total. */
  lemma TotalAppend(keys: seq<string>, sites: map<string, Site>, f: Site -> nat, k: string, v: Site)
    requires forall x :: x in keys ==> x in sites
    requires k !in keys
    ensures Total(keys + [k], sites[k := v], f) == Total(keys, sites, f) + f(v)
  {
    assert (keys + [k])[..|keys|] == keys;
    TotalOther(keys, sites, f, k, v);
  }

  // ---------------------------------------------------------------------
  // Activities (get_site_stats, site_tracker.py:187-225)
  // ---------------------------------------------------------------------

  datatype Activity =
    | ScrapeActivity(site: string, timestamp: nat, url: string)
    | OptimizationActivity(site: string, timestamp: nat, userProfile: string)

  function Timestamp(a: Activity): int { a.timestamp }

  function ScrapeActivities(k: string, s: seq<ScrapeRecord>): (r: seq<Activity>)
    ensures |r| == |s|
  {
    if s == [] then [] else ScrapeActivities(k, s[..|s| - 1]) + [ScrapeActivity(k, s[|s| - 1].scrapedAt, s[|s| - 1].url)]
  }

  function OptimizationActivities(k: string, s: seq<OptimizationRecord>): (r: seq<Activity>)
    ensures |r| == |s|
  {
    if s == [] then []
    else OptimizationActivities(k, s[..|s| - 1]) + [OptimizationActivity(k, s[|s| - 1].optimizedAt, s[|s| - 1].userProfile)]
  }

  /** Every scrape and optimisation of the listed sites, site by site. */
  function AllActivities(keys: seq<string>, sites: map<string, Site>): seq<Activity>
    requires forall k :: k in keys ==> k in sites
  {
    if keys == [] then []
    else
      var k := keys[|keys| - 1];
      AllActivities(keys[..|keys| - 1], sites) + ScrapeActivities(k, sites[k].scrapes)
        + OptimizationActivities(k, sites[k].optimizations)
  }

  /** There is one activity per scrape and per optimisation. */
  lemma {:induction false} ActivityCount(keys: seq<string>, sites: map<string, Site>)
    requires forall k :: k in keys ==> k in sites
    ensures |AllActivities(keys, sites)| == Total(keys, sites, ScrapeCount) + Total(keys, sites, OptimizationCount)
  {
    if keys != [] {
      ActivityCount(keys[..|keys| - 1], sites);
    }
  }

  /** `all_activities.sort(key=timestamp, reverse=True)[:10]` */
  function Recent(all: seq<Activity>): (r: seq<Activity>)
    ensures |r| <= 10
  {
    var sorted := SortDesc(all, Timestamp);
    if |sorted| <= 10 then sorted else sorted[..10]
  }

  /** The recent activities are newest first, are taken from all of them, and
      every activity left out is no newer than the last one shown. */
  lemma RecentAreNewest(all: seq<Activity>)
    ensures SortedDesc(Recent(all), Timestamp)
    ensures forall a :: a in Recent(all) ==> a in all
    ensures forall a :: a in all ==> a in Recent(all) || Timestamp(a) <= Timestamp(Recent(all)[|Recent(all)| - 1])
  {
    var sorted := SortDesc(all, Timestamp);
    var r := Recent(all);
    assert forall a :: a in sorted <==> a in all by {
      forall a ensures a in sorted <==> a in all {
        assert a in sorted <==> a in multiset(sorted);
        assert a in all <==> a in multiset(all);
      }
    }
    forall a | a in all ensures a in r || Timestamp(a) <= Timestamp(r[|r| - 1]) {
      var p :| 0 <= p < |sorted| && sorted[p] == a;
      if p >= 10 {
        assert Timestamp(sorted[9]) >= Timestamp(sorted[p]);
      } else {
        assert r[p] == a;
      }
    }
  }

  /** The inner loop of `get_site_stats` over one site's scrapes. */
  method AppendScrapeActivities(acc: seq<Activity>, k: string, scrapes: seq<ScrapeRecord>) returns (r: seq<Activity>)
    ensures r == acc + ScrapeActivities(k, scrapes)
  {
    r := acc;
    for j := 0 to |scrapes|
      invariant r == acc + ScrapeActivities(k, scrapes[..j])
    {
      assert scrapes[..j + 1][..j] == scrapes[..j];
      r := r + [ScrapeActivity(k, scrapes[j].scrapedAt, scrapes[j].url)];
    }
    assert scrapes[..|scrapes|] == scrapes;
  }

  /** The inner loop of `get_site_stats` over one site's optimisations. */
  method AppendOptimizationActivities(acc: seq<Activity>, k: string, opts: seq<OptimizationRecord>)
    returns (r: seq<Activity>)
    ensures r == acc + OptimizationActivities(k, opts)
  {
    r := acc;
    for j := 0 to |opts|
      invariant r == acc + OptimizationActivities(k, opts[..j])
    {
      assert opts[..j + 1][..j] == opts[..j];
      r := r + [OptimizationActivity(k, opts[j].optimizedAt, opts[j].userProfile)];
    }
    assert opts[..|opts|] == opts;
  }

  datatype SiteStats = SiteStats(totalSites: nat, totalScrapes: nat, totalOptimizations: nat,
                                 recentActivities: seq<Activity>, metadata: Metadata)

  // ---------------------------------------------------------------------
  // Searches (site_tracker.py:227-310)
  // ---------------------------------------------------------------------

  /** A scrape title as the corrected search reads it: `None` is the empty text. */
  function TitleForSearch(t: Option<string>): string { t.GetOr("") }

  predicate TitleMatches(q: string, rec: ScrapeRecord) {
    Contains(Lower(TitleForSearch(rec.title)), q)
  }

  /** The lower-cased query occurs in the key or in some scrape's title. */
  predicate SiteMatches(q: string, k: string, site: Site) {
    Contains(Lower(k), q) || exists i :: 0 <= i < |site.scrapes| && TitleMatches(q, site.scrapes[i])
  }

  /** The sites `search_sites` returns for the lower-cased query `q`. */
  function SearchResults(keys: seq<string>, sites: map<string, Site>, q: string): (r: seq<Site>)
    requires forall k :: k in keys ==> k in sites
    ensures |r| <= |keys|
    ensures forall s :: s in r ==> exists k :: k in keys && sites[k] == s && SiteMatches(q, k, s)
  {
    if keys == [] then []
    else
      var k := keys[|keys| - 1];
      var init := SearchResults(keys[..|keys| - 1], sites, q);
      init + (if SiteMatches(q, k, sites[k]) then [sites[k]] else [])
  }

  /** Every listed site that matches the query is returned. */
  lemma {:induction false} SearchComplete(keys: seq<string>, sites: map<string, Site>, q: string, k: string)
    requires forall k :: k in keys ==> k in sites
    requires k in keys && SiteMatches(q, k, sites[k])
    ensures sites[k] in SearchResults(keys, sites, q)
  {
    var init := keys[..|keys| - 1];
    if k != keys[|keys| - 1] {
      var j :| 0 <= j < |keys| && keys[j] == k;
      assert init[j] == k;
      assert forall x :: x in init ==> x in keys;
      SearchComplete(init, sites, q, k);
    }
  }

  /** The title loop as written: `None.lower()` raises (`None`) unless an
      earlier title already matched. */
  function TitleScanAsWritten(q: string, scrapes: seq<ScrapeRecord>): Option<bool> {
    if scrapes == [] then Some(false)
    else if scrapes[0].title.None? then None
    else if Contains(Lower(scrapes[0].title.value), q) then Some(true)
    else TitleScanAsWritten(q, scrapes[1..])
  }

  /** `search_sites` as written; `None` is the exception. */
  function SearchAsWritten(keys: seq<string>, sites: map<string, Site>, q: string): Option<seq<Site>>
    requires forall k :: k in keys ==> k in sites
  {
    if keys == [] then Some([])
    else
      var k := keys[|keys| - 1];
      match SearchAsWritten(keys[..|keys| - 1], sites, q)
      case None => None
      case Some(init) =>
        if Contains(Lower(k), q) then Some(init + [sites[k]])
        else match TitleScanAsWritten(q, sites[k].scrapes)
          case None => None
          case Some(hit) => Some(init + (if hit then [sites[k]] else []))
  }

  /** Without a `None` title the search as written and the corrected one agree. */
  lemma {:induction false} TitleScanAgrees(q: string, scrapes: seq<ScrapeRecord>)
    requires forall i :: 0 <= i < |scrapes| ==> scrapes[i].title.Some?
    ensures TitleScanAsWritten(q, scrapes) == Some(exists i :: 0 <= i < |scrapes| && TitleMatches(q, scrapes[i]))
  {
    if scrapes != [] {
      TitleScanAgrees(q, scrapes[1..]);
      assert forall i :: 0 <= i < |scrapes| - 1 ==> scrapes[1..][i] == scrapes[i + 1];
      if !TitleMatches(q, scrapes[0]) {
        assert (exists i :: 0 <= i < |scrapes| && TitleMatches(q, scrapes[i]))
          <==> (exists i :: 0 <= i < |scrapes| - 1 && TitleMatches(q, scrapes[1..][i])) by {
          forall i | 1 <= i < |scrapes| && TitleMatches(q, scrapes[i])
            ensures TitleMatches(q, scrapes[1..][i - 1]) {
          }
        }
      }
    }
  }

  lemma {:induction false} SearchAgrees(keys: seq<string>, sites: map<string, Site>, q: string)
    requires forall k :: k in keys ==> k in sites
    requires forall k, i :: k in keys && 0 <= i < |sites[k].scrapes| ==> sites[k].scrapes[i].title.Some?
    ensures SearchAsWritten(keys, sites, q) == Some(SearchResults(keys, sites, q))
  {
    if keys != [] {
      var k := keys[|keys| - 1];
      SearchAgrees(keys[..|keys| - 1], sites, q);
      TitleScanAgrees(q, sites[k].scrapes);
    }
  }

  /** A site whose only scrape has no title makes a search for a text absent
      from its key raise, where the corrected search returns nothing. */
  lemma NullTitleSearchRaises(rec: ScrapeRecord)
    requires rec.title.None?
    ensures var sites := map["example.com" := Site("example.com", 0, [rec], [], Some(0), None)];
      SearchAsWritten(["example.com"], sites, "blog").None?
      && SearchResults(["example.com"], sites, "blog") == []
  {
    var k := "example.com";
    var sites := map[k := Site(k, 0, [rec], [], Some(0), None)];
    assert !Contains(Lower(k), "blog") by {
      var lk := Lower(k);
      forall i | 0 <= i < |lk| ensures lk[i] != 'b' {
        assert lk[i] == LowerChar(k[i]) && k[i] != 'b' && k[i] != 'B';
      }
      assert "blog"[0] == 'b';
      NotContainsChar(lk, "blog", 'b');
    }
    assert !TitleMatches("blog", rec) by {
      assert Lower(TitleForSearch(rec.title)) == [];
      NotContainsChar([], "blog", 'b');
    }
    assert !SiteMatches("blog", k, sites[k]);
    assert TitleScanAsWritten("blog", sites[k].scrapes) == None;
    assert [k][..0] == [];
  }

  predicate OptimizedFor(profile: string, site: Site) {
    exists i :: 0 <= i < |site.optimizations| && site.optimizations[i].userProfile == profile
  }

  /** The sites `get_sites_by_user_profile` returns. */
  function ProfileResults(keys: seq<string>, sites: map<string, Site>, profile: string): (r: seq<Site>)
    requires forall k :: k in keys ==> k in sites
    ensures |r| <= |keys|
    ensures forall s :: s in r ==> exists k :: k in keys && sites[k] == s && OptimizedFor(profile, s)
  {
    if keys == [] then []
    else
      var k := keys[|keys| - 1];
      ProfileResults(keys[..|keys| - 1], sites, profile) + (if OptimizedFor(profile, sites[k]) then [sites[k]] else [])
  }

  /** Every listed site optimised for the profile is returned. */
  lemma {:induction false} ProfileComplete(keys: seq<string>, sites: map<string, Site>, profile: string, k: string)
    requires forall k :: k in keys ==> k in sites
    requires k in keys && OptimizedFor(profile, sites[k])
    ensures sites[k] in ProfileResults(keys, sites, profile)
  {
    var init := keys[..|keys| - 1];
    if k != keys[|keys| - 1] {
      var j :| 0 <= j < |keys| && keys[j] == k;
      assert init[j] == k;
      assert forall x :: x in init ==> x in keys;
      ProfileComplete(init, sites, profile, k);
    }
  }

  /** One entry of `get_sites_by_user_email`. */
  datatype UserSite = UserSite(url: string, domain: string, title: Option<string>, timestamp: nat,
                               savedDirectory: string, category: string, status: string,
                               pagesScraped: nat, userEmail: string)

  function UserSiteTimestamp(u: UserSite): int { u.timestamp }
  function ScrapedAt(r: ScrapeRecord): int { r.scrapedAt }

  /** The scrapes made by `email`, in order. */
  function ByUser(email: string, s: seq<ScrapeRecord>): (r: seq<ScrapeRecord>)
    ensures |r| <= |s|
    ensures forall x :: x in r <==> x in s && x.userEmail == Some(email)
  {
    if s == [] then []
    else ByUser(email, s[..|s| - 1]) + (if s[|s| - 1].userEmail == Some(email) then [s[|s| - 1]] else [])
  }

  /** The entry built from a user's latest scrape of a site. */
  function UserSiteOf(site: Site, latest: ScrapeRecord, email: string): UserSite {
    UserSite(latest.url, site.domain, latest.title, latest.scrapedAt, latest.savedDirectory, "Website",
             "completed", 1, email)
  }

  /** One entry per listed site the user scraped, in key order, before sorting. */
  function UserSites(keys: seq<string>, sites: map<string, Site>, email: string): (r: seq<UserSite>)
    requires forall k :: k in keys ==> k in sites
    ensures |r| <= |keys|
  {
    if keys == [] then []
    else
      var k := keys[|keys| - 1];
      var mine := ByUser(email, sites[k].scrapes);
      UserSites(keys[..|keys| - 1], sites, email)
        + (if mine != [] then [UserSiteOf(sites[k], FirstMax(mine, ScrapedAt), email)] else [])
  }

  /** Every listed site the user scraped has its entry, built from the
      user's latest scrape of it. */
  lemma {:induction false} UserSitesComplete(keys: seq<string>, sites: map<string, Site>, email: string, k: string)
    requires forall k :: k in keys ==> k in sites
    requires k in keys && ByUser(email, sites[k].scrapes) != []
    ensures UserSiteOf(sites[k], FirstMax(ByUser(email, sites[k].scrapes), ScrapedAt), email) in UserSites(keys, sites, email)
    ensures exists u :: u in UserSites(keys, sites, email) && u.domain == sites[k].domain
  {
    var init := keys[..|keys| - 1];
    if k != keys[|keys| - 1] {
      var j :| 0 <= j < |keys| && keys[j] == k;
      assert init[j] == k;
      assert forall x :: x in init ==> x in keys;
      UserSitesComplete(init, sites, email, k);
    }
    assert UserSiteOf(sites[k], FirstMax(ByUser(email, sites[k].scrapes), ScrapedAt), email).domain == sites[k].domain;
  }

  /** `u` describes the latest of the user's scrapes of `site`. */
  predicate LatestOf(u: UserSite, site: Site, email: string) {
    u.domain == site.domain
    && (exists i :: 0 <= i < |site.scrapes| && site.scrapes[i].userEmail == Some(email)
                    && site.scrapes[i].scrapedAt == u.timestamp && site.scrapes[i].url == u.url)
    && forall i :: 0 <= i < |site.scrapes| && site.scrapes[i].userEmail == Some(email)
                   ==> site.scrapes[i].scrapedAt <= u.timestamp
  }

  /** Every entry names a site the user scraped and carries that user's
      latest scrape of it: no scrape by the same user on that site is newer. */
  lemma {:induction false} UserSitesAreLatest(keys: seq<string>, sites: map<string, Site>, email: string)
    requires forall k :: k in keys ==> k in sites
    ensures forall u :: u in UserSites(keys, sites, email) ==>
      u.userEmail == email && exists k :: k in keys && LatestOf(u, sites[k], email)
  {
    if keys != [] {
      var init := keys[..|keys| - 1];
      var k := keys[|keys| - 1];
      UserSitesAreLatest(init, sites, email);
      var s := sites[k].scrapes;
      var mine := ByUser(email, s);
      if mine != [] {
        var m := FirstMax(mine, ScrapedAt);
        assert m in s && m.userEmail == Some(email);
        var i :| 0 <= i < |s| && s[i] == m;
        forall j | 0 <= j < |s| && s[j].userEmail == Some(email) ensures s[j].scrapedAt <= m.scrapedAt {
          assert s[j] in mine;
        }
      }
    }
  }

  // ---------------------------------------------------------------------
  // Each site at most once
  // ---------------------------------------------------------------------

  /** Every listed key is in the table, once, and its entry carries it as domain. */
  ghost predicate Listed(keys: seq<string>, sites: map<string, Site>) {
    Distinct(keys) && forall k :: k in keys ==> k in sites && sites[k].domain == k
  }

  lemma ListedInit(keys: seq<string>, sites: map<string, Site>)
    requires Listed(keys, sites) && keys != []
    ensures Listed(keys[..|keys| - 1], sites) && keys[|keys| - 1] !in keys[..|keys| - 1]
  {
    var n := |keys| - 1;
    forall j | 0 <= j < n ensures keys[..n][j] != keys[n] { assert keys[j] != keys[n]; }
  }

  /** `search_sites` returns each site at most once. */
  lemma {:induction false} SearchResultsDistinct(keys: seq<string>, sites: map<string, Site>, q: string)
    requires Listed(keys, sites)
    ensures Distinct(SearchResults(keys, sites, q))
  {
    if keys != [] {
      var init, k := keys[..|keys| - 1], keys[|keys| - 1];
      ListedInit(keys, sites);
      SearchResultsDistinct(init, sites, q);
      var r0 := SearchResults(init, sites, q);
      if SiteMatches(q, k, sites[k]) {
        AppendFresh(r0, sites[k]);
      }
    }
  }

  /** `get_sites_by_user_profile` returns each site at most once. */
  lemma {:induction false} ProfileResultsDistinct(keys: seq<string>, sites: map<string, Site>, profile: string)
    requires Listed(keys, sites)
    ensures Distinct(ProfileResults(keys, sites, profile))
  {
    if keys != [] {
      var init, k := keys[..|keys| - 1], keys[|keys| - 1];
      ListedInit(keys, sites);
      ProfileResultsDistinct(init, sites, profile);
      var r0 := ProfileResults(init, sites, profile);
      if OptimizedFor(profile, sites[k]) {
        AppendFresh(r0, sites[k]);
      }
    }
  }

  /** Every entry of `get_sites_by_user_email` is for a listed site. */
  lemma {:induction false} UserSiteDomains(keys: seq<string>, sites: map<string, Site>, email: string)
    requires Listed(keys, sites)
    ensures forall u :: u in UserSites(keys, sites, email) ==> u.domain in keys
  {
    if keys != [] {
      var init := keys[..|keys| - 1];
      ListedInit(keys, sites);
      UserSiteDomains(init, sites, email);
    }
  }

  predicate DistinctDomains(r: seq<UserSite>) {
    forall i, j :: 0 <= i < j < |r| ==> r[i].domain != r[j].domain
  }

  lemma AppendNewDomain(r: seq<UserSite>, u: UserSite, known: seq<string>)
    requires DistinctDomains(r) && (forall x :: x in r ==> x.domain in known) && u.domain !in known
    ensures DistinctDomains(r + [u])
  {
    forall i, j | 0 <= i < j < |r| + 1 ensures (r + [u])[i].domain != (r + [u])[j].domain {
      if j == |r| { assert (r + [u])[i] == r[i] && r[i] in r; }
    }
  }

  /** `get_sites_by_user_email` has at most one entry per site. */
  lemma {:induction false} UserSitesOnePerSite(keys: seq<string>, sites: map<string, Site>, email: string)
    requires Listed(keys, sites)
    ensures DistinctDomains(UserSites(keys, sites, email))
  {
    if keys != [] {
      var init, k := keys[..|keys| - 1], keys[|keys| - 1];
      ListedInit(keys, sites);
      UserSitesOnePerSite(init, sites, email);
      UserSiteDomains(init, sites, email);
      var r0 := UserSites(init, sites, email);
      var r := UserSites(keys, sites, email);
      var mine := ByUser(email, sites[k].scrapes);
      if mine != [] {
        var u := UserSiteOf(sites[k], FirstMax(mine, ScrapedAt), email);
        assert r == r0 + [u];
        AppendNewDomain(r0, u, init);
      } else {
        assert r == r0;
      }
    }
  }

  /** The counters equal the list lengths they count, the key list holds
      every key once, and every entry is filed under its own domain. */
  ghost predicate Consistent(keys: seq<string>, sites: map<string, Site>, m: Metadata) {
    KeysMatch(keys, sites)
    && m.totalSitesScraped == Total(keys, sites, ScrapeCount)
    && m.totalOptimizations == Total(keys, sites, OptimizationCount)
  }

  /** The key list holds every key of the table once, and every entry is
      filed under its own domain. */
  ghost predicate KeysMatch(keys: seq<string>, sites: map<string, Site>) {
    Distinct(keys) && (forall k :: k in keys <==> k in sites)
    && (forall k :: k in sites ==> sites[k].domain == k)
  }

  /** The keys after filing something under `k`. */
  function KeysWith(keys: seq<string>, sites: map<string, Site>, k: string): seq<string> {
    if k in sites then keys else keys + [k]
  }

  /** Filing an entry under its own domain keeps the keys in step with the table. */
  lemma FileKeys(keys: seq<string>, sites: map<string, Site>, k: string, v: Site)
    requires KeysMatch(keys, sites) && v.domain == k
    ensures KeysMatch(KeysWith(keys, sites, k), sites[k := v])
  {
    var keys2 := KeysWith(keys, sites, k);
    if k !in sites {
      assert Distinct(keys2) by {
        forall i, j | 0 <= i < j < |keys2| ensures keys2[i] != keys2[j] {
          if j == |keys| { assert keys2[i] in keys; }
        }
      }
    }
  }

  /** Filing `v` under `k` moves each total by the change in that entry's list. */
  lemma FileTotal(keys: seq<string>, sites: map<string, Site>, k: string, v: Site, f: Site -> nat)
    requires KeysMatch(keys, sites)
    ensures Total(KeysWith(keys, sites, k), sites[k := v], f) + f(Entry(sites, k, 0))
         == Total(keys, sites, f) + f(v) + (if k in sites then 0 else f(Entry(sites, k, 0)))
  {
    if k in sites {
      TotalUpdate(keys, sites, f, k, v);
    } else {
      TotalAppend(keys, sites, f, k, v);
    }
  }

  /** Filing `v` under `k` moves each counter by the change in that entry's list. */
  lemma FilePreserves(keys: seq<string>, sites: map<string, Site>, m: Metadata, k: string, v: Site, m2: Metadata)
    requires Consistent(keys, sites, m) && v.domain == k
    requires var e := Entry(sites, k, 0);
      m2.totalSitesScraped + |e.scrapes| == m.totalSitesScraped + |v.scrapes|
      && m2.totalOptimizations + |e.optimizations| == m.totalOptimizations + |v.optimizations|
    ensures Consistent(KeysWith(keys, sites, k), sites[k := v], m2)
  {
    FileKeys(keys, sites, k, v);
    FileTotal(keys, sites, k, v, ScrapeCount);
    FileTotal(keys, sites, k, v, OptimizationCount);
  }

  /** Recording a scrape keeps the counters equal to the list lengths, with
      one more scrape; the optimisations are untouched. */
  lemma ScrapePreserves(keys: seq<string>, sites: map<string, Site>, m: Metadata, k: string, rec: ScrapeRecord, now: nat)
    requires Consistent(keys, sites, m)
    ensures var e := Entry(sites, k, now);
      Consistent(KeysWith(keys, sites, k), sites[k := e.(scrapes := e.scrapes + [rec], lastScraped := Some(now))],
                 m.(totalSitesScraped := m.totalSitesScraped + 1, lastUpdated := now))
  {
    var e := Entry(sites, k, now);
    FilePreserves(keys, sites, m, k, e.(scrapes := e.scrapes + [rec], lastScraped := Some(now)),
                  m.(totalSitesScraped := m.totalSitesScraped + 1, lastUpdated := now));
  }

  /** Recording an optimisation keeps the counters equal to the list
      lengths, with one more optimisation; the scrapes are untouched. */
  lemma OptimizationPreserves(keys: seq<string>, sites: map<string, Site>, m: Metadata, k: string,
                              rec: OptimizationRecord, now: nat)
    requires Consistent(keys, sites, m)
    ensures var e := Entry(sites, k, now);
      Consistent(KeysWith(keys, sites, k),
                 sites[k := e.(optimizations := e.optimizations + [rec], lastOptimized := Some(now))],
                 m.(totalOptimizations := m.totalOptimizations + 1, lastUpdated := now))
  {
    var e := Entry(sites, k, now);
    FilePreserves(keys, sites, m, k, e.(optimizations := e.optimizations + [rec], lastOptimized := Some(now)),
                  m.(totalOptimizations := m.totalOptimizations + 1, lastUpdated := now));
  }

  // ---------------------------------------------------------------------
  // The tracker
  // ---------------------------------------------------------------------

  class SiteTracker {
    /** `data["metadata"]` */
    var metadata: Metadata
    /** `data["sites"]` */
    var sites: map<string, Site>
    /** The keys of `sites` in insertion order, the order Python iterates a dict in. */
    var keys: seq<string>
    /** `urlparse(url).netloc`, `None` where it raises. */
    const netloc: string -> Option<string>

    /** The counters equal the list lengths they count, the key list holds
        every key once, and every entry is filed under its own domain. */
    ghost predicate Valid()
      reads this
    {
      Consistent(keys, sites, metadata)
    }

    /** `_create_new_tracker`: the state of a tracker with no file to load. */
    constructor(netloc: string -> Option<string>, now: nat)
      ensures Valid()
      ensures sites == map[] && keys == []
      ensures metadata == Metadata(now, now, "1.0", 0, 0)
      ensures this.netloc == netloc
    {
      metadata := Metadata(now, now, "1.0", 0, 0);
      sites := map[];
      keys := [];
      this.netloc := netloc;
    }

    /** `add_scraped_site`. A URL whose host cannot be parsed changes nothing
        and returns False; otherwise the scrape is recorded, and the result
        says whether the file write then succeeded. */
    method AddScrapedSite(url: string, title: TitleEntry, stats: PageStats, savedDirectory: string,
                          userEmail: Option<string>, now: nat, saveOk: bool) returns (ok: bool)
      requires Valid()
      modifies this
      ensures Valid()
      ensures SiteKey(netloc, url).None? ==> !ok && unchanged(this)
      ensures SiteKey(netloc, url).Some? ==>
        var k := SiteKey(netloc, url).value;
        var old_entry := Entry(old(sites), k, now);
        var rec := ScrapeRecord(url, now, savedDirectory, userEmail, StoredTitle(title), stats);
        ok == saveOk
        && sites == old(sites)[k := old_entry.(scrapes := old_entry.scrapes + [rec], lastScraped := Some(now))]
        && keys == KeysWith(old(keys), old(sites), k)
        && metadata == old(metadata).(totalSitesScraped := old(metadata).totalSitesScraped + 1, lastUpdated := now)
      ensures SiteKey(netloc, url).Some? ==> IsSiteScraped(url) == Some(true)
      ensures forall k :: k in old(sites) ==> k in sites && sites[k].firstScraped == old(sites)[k].firstScraped
    {
      var key := SiteKey(netloc, url);
      if key.None? {
        return false;
      }
      var k := key.value;
      ghost var sites0, keys0, metadata0 := sites, keys, metadata;
      var entry := Entry(sites, k, now);
      if k !in sites {
        keys := keys + [k];
      }
      var rec := ScrapeRecord(url, now, savedDirectory, userEmail, StoredTitle(title), stats);
      entry := entry.(scrapes := entry.scrapes + [rec], lastScraped := Some(now));
      sites := sites[k := entry];
      metadata := metadata.(totalSitesScraped := metadata.totalSitesScraped + 1, lastUpdated := now);
      ok := saveOk;
      ScrapePreserves(keys0, sites0, metadata0, k, rec, now);
      assert Consistent(keys, sites, metadata);
    }

    /** `add_optimized_site`: one more optimisation record for the site,
        creating an entry with no scrapes when the site is new. */
    method AddOptimizedSite(url: string, userProfile: string, optimizedDirectory: string, now: nat,
                            saveOk: bool) returns (ok: bool)
      requires Valid()
      modifies this
      ensures Valid()
      ensures SiteKey(netloc, url).None? ==> !ok && unchanged(this)
      ensures SiteKey(netloc, url).Some? ==>
        var k := SiteKey(netloc, url).value;
        var old_entry := Entry(old(sites), k, now);
        var rec := OptimizationRecord(url, userProfile, now, optimizedDirectory);
        ok == saveOk
        && sites == old(sites)[k := old_entry.(optimizations := old_entry.optimizations + [rec],
                                                lastOptimized := Some(now))]
        && keys == KeysWith(old(keys), old(sites), k)
        && metadata == old(metadata).(totalOptimizations := old(metadata).totalOptimizations + 1, lastUpdated := now)
      ensures forall k :: k in old(sites) ==> k in sites && sites[k].scrapes == old(sites)[k].scrapes
      ensures forall k :: k in sites && k !in old(sites) ==> sites[k].scrapes == []
      ensures forall u :: IsSiteScraped(u) == old(IsSiteScraped(u))
    {
      var key := SiteKey(netloc, url);
      if key.None? {
        return false;
      }
      var k := key.value;
      ghost var sites0, keys0, metadata0 := sites, keys, metadata;
      var entry := Entry(sites, k, now);
      if k !in sites {
        keys := keys + [k];
      }
      var rec := OptimizationRecord(url, userProfile, now, optimizedDirectory);
      entry := entry.(optimizations := entry.optimizations + [rec], lastOptimized := Some(now));
      sites := sites[k := entry];
      metadata := metadata.(totalOptimizations := metadata.totalOptimizations + 1, lastUpdated := now);
      ok := saveOk;
      OptimizationPreserves(keys0, sites0, metadata0, k, rec, now);
      assert Consistent(keys, sites, metadata);
    }

    /** `is_site_scraped`; `None` where the URL cannot be parsed. */
    function IsSiteScraped(url: string): (r: Option<bool>)
      reads this
      ensures r.None? <==> SiteKey(netloc, url).None?
      ensures r == Some(true) ==> SiteKey(netloc, url).value in sites
    {
      match SiteKey(netloc, url)
      case None => None
      case Some(k) => Some(k in sites && |sites[k].scrapes| > 0)
    }

    /** `sum(f(site) for site in sites.values())` */
    method SumOver(f: Site -> nat) returns (n: nat)
      requires Valid()
      ensures n == Total(keys, sites, f)
    {
      n := 0;
      for i := 0 to |keys|
        invariant n == Total(keys[..i], sites, f)
      {
        assert keys[..i + 1][..i] == keys[..i];
        n := n + f(sites[keys[i]]);
      }
      assert keys[..|keys|] == keys;
    }

    /** `get_site_stats` */
    method GetSiteStats() returns (stats: SiteStats)
      requires Valid()
      ensures stats == SiteStats(|sites|, Total(keys, sites, ScrapeCount), Total(keys, sites, OptimizationCount),
                                 Recent(AllActivities(keys, sites)), metadata)
      ensures stats.totalScrapes == metadata.totalSitesScraped
      ensures stats.totalOptimizations == metadata.totalOptimizations
      ensures |stats.recentActivities| <= 10
    {
      var totalScrapes := SumOver(ScrapeCount);
      var totalOptimizations := SumOver(OptimizationCount);
      var all: seq<Activity> := [];
      for i := 0 to |keys|
        invariant all == AllActivities(keys[..i], sites)
      {
        var k := keys[i];
        assert keys[..i + 1][..i] == keys[..i];
        all := AppendScrapeActivities(all, k, sites[k].scrapes);
        all := AppendOptimizationActivities(all, k, sites[k].optimizations);
      }
      assert keys[..|keys|] == keys;
      var sorted := SortDesc(all, Timestamp);
      var recent := if |sorted| <= 10 then sorted else sorted[..10];
      stats := SiteStats(|sites|, totalScrapes, totalOptimizations, recent, metadata);
    }

    /** `search_sites`, reading a missing title as the empty text. */
    method SearchSites(query: string) returns (results: seq<Site>)
      requires Valid()
      ensures results == SearchResults(keys, sites, Lower(query))
      ensures Distinct(results)
    {
      var q := Lower(query);
      results := [];
      for i := 0 to |keys|
        invariant results == SearchResults(keys[..i], sites, q)
      {
        var k := keys[i];
        var site := sites[k];
        assert keys[..i + 1][..i] == keys[..i];
        var found := Contains(Lower(k), q);
        if !found {
          var j := 0;
          while j < |site.scrapes| && !found
            invariant 0 <= j <= |site.scrapes|
            invariant found <==> exists m :: 0 <= m < j && TitleMatches(q, site.scrapes[m])
          {
            found := Contains(Lower(site.scrapes[j].title.GetOr("")), q);
            j := j + 1;
          }
        }
        if found {
          results := results + [site];
        }
      }
      assert keys[..|keys|] == keys;
      SearchResultsDistinct(keys, sites, q);
    }

    /** `get_sites_by_user_profile` */
    method GetSitesByUserProfile(profile: string) returns (results: seq<Site>)
      requires Valid()
      ensures results == ProfileResults(keys, sites, profile)
      ensures Distinct(results)
    {
      results := [];
      for i := 0 to |keys|
        invariant results == ProfileResults(keys[..i], sites, profile)
      {
        var site := sites[keys[i]];
        assert keys[..i + 1][..i] == keys[..i];
        var j := 0;
        var found := false;
        while j < |site.optimizations| && !found
          invariant 0 <= j <= |site.optimizations|
          invariant found <==> exists m :: 0 <= m < j && site.optimizations[m].userProfile == profile
        {
          found := site.optimizations[j].userProfile == profile;
          j := j + 1;
        }
        if found {
          results := results + [site];
        }
      }
      assert keys[..|keys|] == keys;
      ProfileResultsDistinct(keys, sites, profile);
    }

    /** `get_sites_by_user_email`: each site the user scraped, described by
        the user's latest scrape of it, newest first. */
    method GetSitesByUserEmail(email: string) returns (results: seq<UserSite>)
      requires Valid()
      ensures results == SortDesc(UserSites(keys, sites, email), UserSiteTimestamp)
      ensures SortedDesc(results, UserSiteTimestamp)
      ensures forall u :: u in results <==> u in UserSites(keys, sites, email)
    {
      var entries: seq<UserSite> := [];
      for i := 0 to |keys|
        invariant entries == UserSites(keys[..i], sites, email)
      {
        var k := keys[i];
        var site := sites[k];
        assert keys[..i + 1][..i] == keys[..i];
        var mine: seq<ScrapeRecord> := [];
        for j := 0 to |site.scrapes|
          invariant mine == ByUser(email, site.scrapes[..j])
        {
          assert site.scrapes[..j + 1][..j] == site.scrapes[..j];
          if site.scrapes[j].userEmail == Some(email) {
            mine := mine + [site.scrapes[j]];
          }
        }
        assert site.scrapes[..|site.scrapes|] == site.scrapes;
        if mine != [] {
          var latest := FirstMax(mine, ScrapedAt);
          entries := entries + [UserSiteOf(site, latest, email)];
        }
      }
      assert keys[..|keys|] == keys;
      results := SortDesc(entries, UserSiteTimestamp);
      assert forall u :: u in results <==> u in entries by {
        forall u ensures u in results <==> u in entries {
          assert u in results <==> u in multiset(results);
          assert u in entries <==> u in multiset(entries);
        }
      }
    }
  }
}
